/** The few pieces of Python semantics the metric scripts rely on: the value
    `None`, the exceptions that can escape a call, a `for` loop whose body may
    raise, and the built-in `int()` applied to a string. */
module Python {
  import opened Lists

  /** A Python value that may be `None`. */
  datatype Option<+T> = None | Some(value: T)

  /** The exceptions that can be raised by the modelled code. */
  datatype Error =
    | IndexError      // `[0]` on an empty NodeList
    | AttributeError  // `.nodeValue` of a missing `firstChild`
    | TypeError       // `str + None`, `int(None)`
    | ValueError      // `int()` of a string that is not a decimal integer
    | NameError       // a name that is not bound in the module
    | ConnectionError // `requests.exceptions.ConnectionError`

  /** The outcome of a Python call: a value, or an exception that escaped it. */
  datatype Outcome<+T> = Ok(value: T) | Raised(error: Error) {
    predicate IsFailure() { Raised? }

    function PropagateFailure<U>(): Outcome<U>
      requires Raised?
    {
      Raised(error)
    }

    function Extract(): T
      requires Ok?
    {
      value
    }
  }

  /** What a `for` loop over `rs` that evaluates `f` on each element leaves
      behind: the values of the elements handled before the first exception,
      and that exception, if any. */
  datatype Scan<T> = Scan(values: seq<T>, fault: Option<Error>)

  /** Evaluates `f` on every element of `rs` in order, stopping at the first
      element on which `f` raises. */
  function ScanAll<R, T>(rs: seq<R>, f: R -> Outcome<T>): (s: Scan<T>)
    ensures |s.values| <= |rs|
    ensures s.fault.None? <==> |s.values| == |rs|
    decreases |rs|
  {
    if rs == [] then Scan([], None)
    else
      var s := ScanAll(rs[..|rs| - 1], f);
      if s.fault.Some? then s
      else
        match f(rs[|rs| - 1])
        case Ok(v) => Scan(s.values + [v], None)
        case Raised(e) => Scan(s.values, Some(e))
  }

  /** The scan holds the value of every element before the first one that
      raises, and that element's exception. */
  lemma {:induction false} ScanAllSpec<R, T>(rs: seq<R>, f: R -> Outcome<T>)
    ensures var s := ScanAll(rs, f);
            && (forall i :: 0 <= i < |s.values| ==> f(rs[i]) == Ok(s.values[i]))
            && (s.fault.Some? ==> f(rs[|s.values|]) == Raised(s.fault.value))
    decreases |rs|
  {
    if rs != [] {
      var init := rs[..|rs| - 1];
      ScanAllSpec(init, f);
      assert forall i :: 0 <= i < |init| ==> rs[i] == init[i];
    }
  }

  /** The scan of a sequence is determined by the first element that raises. */
  lemma {:induction false} ScanAllUnique<R, T>(rs: seq<R>, f: R -> Outcome<T>, s: Scan<T>)
    requires |s.values| <= |rs|
    requires forall i :: 0 <= i < |s.values| ==> f(rs[i]) == Ok(s.values[i])
    requires s.fault.None? <==> |s.values| == |rs|
    requires s.fault.Some? ==> f(rs[|s.values|]) == Raised(s.fault.value)
    ensures ScanAll(rs, f) == s
  {
    ScanAllSpec(rs, f);
    var t := ScanAll(rs, f);
    if |t.values| < |s.values| {
      assert false;
    } else if |s.values| < |t.values| {
      assert false;
    } else {
      assert t.values == s.values;
    }
  }

  /** Handling one more element after a fault-free prefix. */
  lemma ScanAllStep<R, T>(rs: seq<R>, f: R -> Outcome<T>, i: nat)
    requires i < |rs|
    requires ScanAll(rs[..i], f).fault.None?
    ensures f(rs[i]).Ok? ==>
      ScanAll(rs[..i + 1], f) == Scan(ScanAll(rs[..i], f).values + [f(rs[i]).value], None)
    ensures f(rs[i]).Raised? ==>
      ScanAll(rs, f) == Scan(ScanAll(rs[..i], f).values, Some(f(rs[i]).error))
  {
    assert rs[..i + 1][..i] == rs[..i];
    if f(rs[i]).Raised? {
      ScanAllSpec(rs[..i], f);
      var s := Scan(ScanAll(rs[..i], f).values, Some(f(rs[i]).error));
      ScanAllUnique(rs, f, s);
    }
  }

  /** The number of `True` values in `bs`, as a counter incremented on each. */
  function Hits(bs: seq<bool>): (n: nat)
    ensures n == multiset(bs)[true]
    ensures n <= |bs|
    ensures n == |bs| <==> forall i :: 0 <= i < |bs| ==> bs[i]
    decreases |bs|
  {
    if bs == [] then 0
    else
      var init := bs[..|bs| - 1];
      assert bs == init + [bs[|bs| - 1]];
      Hits(init) + (if bs[|bs| - 1] then 1 else 0)
  }

  /** A loop that appends each `f(r)` not yet in its list and returns the
      list, or the first exception raised. */
  function Distinct<R, T(==)>(rs: seq<R>, f: R -> Outcome<T>): Outcome<seq<T>> {
    var s := ScanAll(rs, f);
    if s.fault.Some? then Raised(s.fault.value) else Ok(Dedup(s.values))
  }

  /** The loop raises exactly when `f` raises on some element, and then with
      the first such exception; otherwise its list holds every value of `f`
      exactly once, in the order of first occurrence. */
  lemma DistinctSpec<R, T(!new)>(rs: seq<R>, f: R -> Outcome<T>)
    ensures Distinct(rs, f).Raised? <==> exists i :: 0 <= i < |rs| && f(rs[i]).Raised?
    ensures Distinct(rs, f).Raised? ==>
              exists i :: 0 <= i < |rs| && f(rs[i]) == Raised(Distinct(rs, f).error) &&
                          forall k :: 0 <= k < i ==> f(rs[k]).Ok?
    ensures Distinct(rs, f).Ok? ==> NoDups(Distinct(rs, f).value)
    ensures Distinct(rs, f).Ok? ==>
              forall x :: x in Distinct(rs, f).value <==> exists i :: 0 <= i < |rs| && f(rs[i]) == Ok(x)
    ensures Distinct(rs, f).Ok? ==>
              forall x :: x in Distinct(rs, f).value <==> x in ScanAll(rs, f).values
    ensures Distinct(rs, f).Ok? ==>
              var vs := ScanAll(rs, f).values;
              forall i, j :: 0 <= i < j < |Distinct(rs, f).value| ==>
                FirstIndex(vs, Distinct(rs, f).value[i]) < FirstIndex(vs, Distinct(rs, f).value[j])
  {
    ScanAllSpec(rs, f);
    var s := ScanAll(rs, f);
    DedupOrder(s.values);
    if s.fault.Some? {
      var i := |s.values|;
      assert f(rs[i]) == Raised(Distinct(rs, f).error);
    } else {
      forall x | x in s.values ensures exists i :: 0 <= i < |rs| && f(rs[i]) == Ok(x) {
        var i :| 0 <= i < |s.values| && s.values[i] == x;
      }
    }
  }

  /** A loop that increments a counter for each `r` with `f(r) == True`, or
      the first exception raised. */
  function Count<R>(rs: seq<R>, f: R -> Outcome<bool>): Outcome<nat> {
    var s := ScanAll(rs, f);
    if s.fault.Some? then Raised(s.fault.value) else Ok(Hits(s.values))
  }

  /** The number of elements of `rs` that satisfy `p`. */
  function Tally<R>(rs: seq<R>, p: R -> bool): nat {
    multiset(seq(|rs|, i requires 0 <= i < |rs| => p(rs[i])))[true]
  }

  /** One more element adds one to the tally exactly when it satisfies `p`. */
  lemma TallySnoc<R>(rs: seq<R>, r: R, p: R -> bool)
    ensures Tally(rs + [r], p) == Tally(rs, p) + (if p(r) then 1 else 0)
  {
    var before := seq(|rs|, i requires 0 <= i < |rs| => p(rs[i]));
    var after := seq(|rs + [r]|, i requires 0 <= i < |rs + [r]| => p((rs + [r])[i]));
    assert after == before + [p(r)];
  }

  /** The tally of two lists one after the other is the sum of their tallies. */
  lemma TallyAppend<R>(a: seq<R>, b: seq<R>, p: R -> bool)
    ensures Tally(a + b, p) == Tally(a, p) + Tally(b, p)
  {
    var sa := seq(|a|, i requires 0 <= i < |a| => p(a[i]));
    var sb := seq(|b|, i requires 0 <= i < |b| => p(b[i]));
    var sab := seq(|a + b|, i requires 0 <= i < |a + b| => p((a + b)[i]));
    assert sab == sa + sb;
  }

  /** The tally is at most the number of elements, and equals it exactly
      when every element satisfies `p`. */
  lemma TallyBounds<R>(rs: seq<R>, p: R -> bool)
    ensures Tally(rs, p) <= |rs|
    ensures Tally(rs, p) == |rs| <==> forall i :: 0 <= i < |rs| ==> p(rs[i])
  {
    var bs := seq(|rs|, i requires 0 <= i < |rs| => p(rs[i]));
    assert Hits(bs) == Tally(rs, p);
    assert forall i :: 0 <= i < |rs| ==> bs[i] == p(rs[i]);
  }

  /** The counting loop raises exactly when `f` raises on some element, and
      then with the first such exception; otherwise it returns the number of
      elements on which `f` returns `True`, at most the number of elements,
      as measured by any predicate `p` that agrees with `f` returning `True`. */
  lemma CountSpec<R>(rs: seq<R>, f: R -> Outcome<bool>, p: R -> bool)
    requires forall i :: 0 <= i < |rs| && f(rs[i]).Ok? ==> (f(rs[i]) == Ok(true) <==> p(rs[i]))
    ensures Count(rs, f).Ok? <==> forall i :: 0 <= i < |rs| ==> f(rs[i]).Ok?
    ensures Count(rs, f).Raised? ==>
              exists i :: 0 <= i < |rs| && f(rs[i]) == Raised(Count(rs, f).error) &&
                          forall k :: 0 <= k < i ==> f(rs[k]).Ok?
    ensures Count(rs, f).Ok? ==> Count(rs, f).value == Tally(rs, p) <= |rs|
  {
    ScanAllSpec(rs, f);
    var s := ScanAll(rs, f);
    if s.fault.Some? {
      assert f(rs[|s.values|]).Raised?;
    } else {
      var hits := seq(|rs|, i requires 0 <= i < |rs| => p(rs[i]));
      forall i | 0 <= i < |rs| ensures s.values[i] == hits[i] {
        assert f(rs[i]) == Ok(s.values[i]);
      }
      assert s.values == hits;
    }
  }

  // ---------------------------------------------------------------------
  // The built-in int() on a string.

  /** The ASCII characters `str.strip()` and `int()` treat as white space. */
  predicate IsSpace(c: char) {
    9 <= c as int <= 13 || 28 <= c as int <= 32
  }

  predicate IsDigit(c: char) {
    '0' as int <= c as int <= '9' as int
  }

  predicate AllDigits(s: string) {
    forall i :: 0 <= i < |s| ==> IsDigit(s[i])
  }

  function StripLeft(s: string): (r: string)
    ensures |r| <= |s| && r == s[|s| - |r|..]
    ensures r != [] ==> !IsSpace(r[0])
    ensures forall i :: 0 <= i < |s| - |r| ==> IsSpace(s[i])
  {
    if s != [] && IsSpace(s[0]) then StripLeft(s[1..]) else s
  }

  function StripRight(s: string): (r: string)
    ensures |r| <= |s| && r == s[..|r|]
    ensures r != [] ==> !IsSpace(r[|r| - 1])
    ensures forall i :: |r| <= i < |s| ==> IsSpace(s[i])
  {
    if s != [] && IsSpace(s[|s| - 1]) then StripRight(s[..|s| - 1]) else s
  }

  /** `s.strip()`. */
  function Strip(s: string): string {
    StripRight(StripLeft(s))
  }

  /** The value of a string of decimal digits, most significant first. */
  function DigitsValue(ds: string): (n: nat)
    requires AllDigits(ds)
    decreases |ds|
  {
    if ds == [] then 0
    else DigitsValue(ds[..|ds| - 1]) * 10 + (ds[|ds| - 1] as int - '0' as int)
  }

  /** `int(s)` for a string `s`: surrounding white space is ignored, an
      optional sign may precede the digits, anything else raises ValueError. */
  function ParseInt(s: string): (r: Outcome<int>)
    ensures r.Raised? ==> r == Raised(ValueError)
    ensures r.Ok? ==> Strip(s) != [] && Strip(s) != "+" && Strip(s) != "-"
  {
    var t := Strip(s);
    var negative := t != [] && t[0] == '-';
    var digits := if t != [] && (t[0] == '-' || t[0] == '+') then t[1..] else t;
    if digits == [] || !AllDigits(digits) then Raised(ValueError)
    else
      var magnitude: int := DigitsValue(digits);
      Ok(if negative then -magnitude else magnitude)
  }

  /** A character `int()` accepts somewhere in its argument. */
  predicate IntChar(c: char) {
    IsDigit(c) || IsSpace(c) || c == '+' || c == '-'
  }

  /** `int(s)` raises `ValueError`, and nothing else, on every string with a
      character other than white space, a digit or a sign, and on every
      string that is blank or a bare sign once stripped. */
  lemma ParseIntRejects(s: string)
    ensures ParseInt(s).Raised? ==> ParseInt(s) == Raised(ValueError)
    ensures (exists i :: 0 <= i < |s| && !IntChar(s[i])) ==> ParseInt(s) == Raised(ValueError)
    ensures Strip(s) == [] || Strip(s) == "+" || Strip(s) == "-" ==> ParseInt(s) == Raised(ValueError)
  {
    if ParseInt(s).Ok? {
      ParseIntChars(s);
    }
  }

  /** Every character of a string `int()` accepts is white space, a digit or
      a sign. */
  lemma ParseIntChars(s: string)
    requires ParseInt(s).Ok?
    ensures forall i :: 0 <= i < |s| ==> IntChar(s[i])
  {
    var l := StripLeft(s);
    var t := Strip(s);
    var a := |s| - |l|;
    assert t == l[..|t|];
    var digits := if t[0] == '-' || t[0] == '+' then t[1..] else t;
    assert AllDigits(digits);
    forall i | 0 <= i < |s| ensures IntChar(s[i]) {
      if a <= i < a + |t| {
        assert s[i] == l[i - a] == t[i - a];
        if i - a > 0 || !(t[0] == '-' || t[0] == '+') {
          assert IsDigit(t[i - a]) by {
            if t[0] == '-' || t[0] == '+' {
              assert t[i - a] == digits[i - a - 1];
            } else {
              assert t[i - a] == digits[i - a];
            }
          }
        }
      } else if a + |t| <= i {
        assert s[i] == l[i - a];
      }
    }
  }

  /** `str(n)` for a natural number. */
  function ShowNat(n: nat): (s: string)
    ensures s != [] && AllDigits(s)
  {
    var d := ['0' + (n % 10) as char];
    if n < 10 then d else ShowNat(n / 10) + d
  }

  /** `str(n)` for an integer. */
  function ShowInt(n: int): string {
    if n < 0 then "-" + ShowNat(-n) else ShowNat(n)
  }

  lemma {:induction false} DigitsValueOfShowNat(n: nat)
    ensures DigitsValue(ShowNat(n)) == n
  {
    var s := ShowNat(n);
    if n >= 10 {
      DigitsValueOfShowNat(n / 10);
      assert s[..|s| - 1] == ShowNat(n / 10);
    }
  }

  /** A string that neither starts nor ends with white space is its own strip. */
  lemma StripTrimmed(s: string)
    requires s != [] && !IsSpace(s[0]) && !IsSpace(s[|s| - 1])
    ensures Strip(s) == s
  {
    assert StripLeft(s) == s;
  }

  /** `int(str(n)) == n`: the decimal rendering of every integer parses back. */
  lemma ParseIntOfShowInt(n: int)
    ensures ParseInt(ShowInt(n)) == Ok(n)
  {
    var s := ShowInt(n);
    var m: nat := if n < 0 then -n else n;
    var digits := ShowNat(m);
    DigitsValueOfShowNat(m);
    assert IsDigit(digits[0]) && IsDigit(digits[|digits| - 1]);
    if n < 0 {
      assert s == "-" + digits;
      assert s[1..] == digits;
      StripTrimmed(s);
    } else {
      assert s == digits;
      StripTrimmed(s);
    }
  }
}

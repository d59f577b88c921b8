// The names of a recorded trace's files, and the order that sorting puts them in.
module FileNames {
  import opened Lists

  // ----- decimal numbers -----

  function Pow10(w: nat): (r: nat)
    ensures r >= 1
  {
    if w == 0 then 1 else 10 * Pow10(w - 1)
  }

  function Digit(d: nat): char
    requires d < 10
  {
    "0123456789"[d]
  }

  predicate IsDigit(c: char) {
    '0' <= c <= '9'
  }

  function Decimal(n: nat): (s: string)
    ensures s != []
    ensures forall i :: 0 <= i < |s| ==> IsDigit(s[i])
  {
    if n < 10 then [Digit(n)] else Decimal(n / 10) + [Digit(n % 10)]
  }

  function Pad(w: nat, digits: string): string {
    if |digits| >= w then digits else seq(w - |digits|, _ => '0') + digits
  }

  // %0<w>d: the decimal digits, zeros before them up to width w.
  function Padded(w: nat, n: nat): (s: string)
    ensures s != [] || w == 0
    ensures forall i :: 0 <= i < |s| ==> IsDigit(s[i])
  {
    Pad(w, Decimal(n))
  }

  // The last w digits of n.
  function Fixed(w: nat, n: nat): (s: string)
    ensures |s| == w
  {
    if w == 0 then "" else Fixed(w - 1, n / 10) + [Digit(n % 10)]
  }

  lemma {:induction false} FixedZeros(w: nat)
    ensures Fixed(w, 0) == seq(w, _ => '0')
  {
    if w == 0 {
    } else {
      FixedZeros(w - 1);
      assert seq(w - 1, _ => '0') + ['0'] == seq(w, _ => '0');
    }
  }

  lemma PadOne(w: nat, digits: string, last: char)
    ensures Pad(w + 1, digits + [last]) == Pad(w, digits) + [last]
  {
  }

  lemma {:induction false} PaddedIsFixed(w: nat, n: nat)
    requires n < Pow10(w) && w > 0
    ensures Padded(w, n) == Fixed(w, n)
  {
    hide Digit;
    if n < 10 {
      FixedZeros(w - 1);
      assert Fixed(w, n) == Fixed(w - 1, 0) + [Digit(n)];
    } else {
      assert w > 1 && n / 10 < Pow10(w - 1);
      PaddedIsFixed(w - 1, n / 10);
      PadOne(w - 1, Decimal(n / 10), Digit(n % 10));
      assert Decimal(n) == Decimal(n / 10) + [Digit(n % 10)];
    }
  }

  // ----- the order of names -----

  predicate Less(a: string, b: string) {
    b != [] && (a == [] || a[0] < b[0] || (a[0] == b[0] && Less(a[1..], b[1..])))
  }

  lemma {:induction false} LessIsStrict(a: string, b: string)
    ensures !(Less(a, b) && Less(b, a)) && !Less(a, a)
    ensures a != b ==> Less(a, b) || Less(b, a)
  {
    if a == [] {
    } else {
      LessIsStrict(a[1..], a[1..]);
    }
    if a != [] && b != [] {
      LessIsStrict(a[1..], b[1..]);
      assert a == [a[0]] + a[1..] && b == [b[0]] + b[1..];
    }
  }

  lemma {:induction false} LessTransitive(a: string, b: string, c: string)
    requires Less(a, b) && Less(b, c)
    ensures Less(a, c)
  {
    if a != [] && b != [] && c != [] && a[0] == b[0] == c[0] {
      LessTransitive(a[1..], b[1..], c[1..]);
    }
  }

  lemma FirstDecides(a: string, b: string)
    requires a != [] && b != []
    ensures a[0] < b[0] ==> Less(a, b)
    ensures a[0] == b[0] ==> Less(a, b) == Less(a[1..], b[1..])
  {
  }

  lemma {:induction false} LessAfter(prefix: string, a: string, b: string)
    ensures Less(prefix + a, prefix + b) == Less(a, b)
  {
    hide Less;
    if prefix == [] {
      assert prefix + a == a && prefix + b == b;
    } else {
      LessAfter(prefix[1..], a, b);
      FirstDecides(prefix + a, prefix + b);
      assert (prefix + a)[1..] == prefix[1..] + a && (prefix + b)[1..] == prefix[1..] + b;
    }
  }

  // Names of one width sort as their numbers, whatever follows.
  lemma {:induction false} FixedSorts(w: nat, a: nat, b: nat, s: string, t: string)
    requires a < b < Pow10(w)
    ensures Less(Fixed(w, a) + s, Fixed(w, b) + t)
  {
    hide Less;
    var da, db := [Digit(a % 10)], [Digit(b % 10)];
    FirstDecides(da + s, db + t);
    if a / 10 < b / 10 {
      FixedSorts(w - 1, a / 10, b / 10, da + s, db + t);
    } else {
      LessAfter(Fixed(w - 1, a / 10), da + s, db + t);
    }
    assert Fixed(w, a) + s == Fixed(w - 1, a / 10) + (da + s);
    assert Fixed(w, b) + t == Fixed(w - 1, b / 10) + (db + t);
  }

  // ----- the trace's files -----

  function PrefillName(chunk: nat): string { "prefill_chunk_" + Padded(3, chunk) + ".pb" }
  function RequestName(step: nat): string { "step_" + Padded(4, step) + "_request.pb" }
  function ResponseName(step: nat): string { "step_" + Padded(4, step) + "_response.pb" }

  predicate EndsWith(s: string, tail: string) {
    |tail| <= |s| && s[|s| - |tail|..] == tail
  }

  // name.find("prefill_chunk_") == 0, and the last three characters are ".pb".
  predicate IsPrefillName(name: string) {
    "prefill_chunk_" <= name && |name| > 3 && EndsWith(name, ".pb")
  }

  // step_\d+_request\.pb
  predicate IsRequestName(name: string) {
    && "step_" <= name && EndsWith(name, "_request.pb") && |name| > 16
    && forall i :: 5 <= i < |name| - 11 ==> IsDigit(name[i])
  }

  // base.substr(0, |base| - |"request.pb"|) + "response.pb"
  function ResponseFor(name: string): string
    requires IsRequestName(name)
  {
    name[..|name| - 10] + "response.pb"
  }

  lemma RequestNameMatches(step: nat)
    ensures IsRequestName(RequestName(step))
  {
    hide Padded;
    var d, name := Padded(4, step), RequestName(step);
    assert name[|name| - 11..] == "_request.pb";
    forall i | 5 <= i < |name| - 11
      ensures IsDigit(name[i])
    {
      assert name[i] == d[i - 5];
    }
  }

  lemma ResponseNameDiffers(step: nat)
    ensures !IsRequestName(ResponseName(step))
  {
    hide Padded;
    var response := ResponseName(step);
    assert response[|response| - 12..] == "_response.pb";
    assert response[|response| - 11] == 'r';
  }

  lemma StepNamesAreNoPrefills(step: nat)
    ensures !IsPrefillName(RequestName(step)) && !IsPrefillName(ResponseName(step))
  {
    hide Padded;
    assert RequestName(step)[0] == 's' == ResponseName(step)[0] && "prefill_chunk_"[0] == 'p';
  }

  lemma ResponseIsFound(step: nat)
    requires IsRequestName(RequestName(step))
    ensures ResponseFor(RequestName(step)) == ResponseName(step)
  {
    hide Padded, IsRequestName;
    var name := RequestName(step);
    assert name[..|name| - 10] == "step_" + Padded(4, step) + "_";
  }

  lemma RequestNameFits(step: nat)
    ensures IsRequestName(RequestName(step)) && !IsPrefillName(RequestName(step))
    ensures ResponseFor(RequestName(step)) == ResponseName(step)
    ensures !IsRequestName(ResponseName(step)) && !IsPrefillName(ResponseName(step))
  {
    hide RequestName, ResponseName, IsRequestName, IsPrefillName;
    RequestNameMatches(step);
    ResponseNameDiffers(step);
    StepNamesAreNoPrefills(step);
    ResponseIsFound(step);
  }

  lemma PrefillNameFits(chunk: nat)
    ensures IsPrefillName(PrefillName(chunk)) && !IsRequestName(PrefillName(chunk))
    ensures !IsPrefillName("session.pb") && !IsRequestName("session.pb")
  {
    var name := PrefillName(chunk);
    assert name[|name| - 3..] == ".pb";
    assert name[0] == 'p' && "step_"[0] == 's';
    assert "session.pb"[1] == 'e';
  }

  // Step ids are contiguous from 1, so a generation's request files sort in the order
  // they were recorded exactly when it has fewer than 10^4 steps.
  lemma RequestsSort(a: nat, b: nat)
    requires a < b < 10000
    ensures Less(RequestName(a), RequestName(b))
  {
    assert Pow10(4) == 10000;
    PaddedIsFixed(4, a);
    PaddedIsFixed(4, b);
    FixedSorts(4, a, b, "_request.pb", "_request.pb");
    LessAfter("step_", Fixed(4, a) + "_request.pb", Fixed(4, b) + "_request.pb");
    assert RequestName(a) == "step_" + (Fixed(4, a) + "_request.pb");
    assert RequestName(b) == "step_" + (Fixed(4, b) + "_request.pb");
  }

  lemma PrefillsSort(a: nat, b: nat)
    requires a < b < 1000
    ensures Less(PrefillName(a), PrefillName(b))
  {
    assert Pow10(3) == 1000;
    PaddedIsFixed(3, a);
    PaddedIsFixed(3, b);
    FixedSorts(3, a, b, ".pb", ".pb");
    LessAfter("prefill_chunk_", Fixed(3, a) + ".pb", Fixed(3, b) + ".pb");
    assert PrefillName(a) == "prefill_chunk_" + (Fixed(3, a) + ".pb");
    assert PrefillName(b) == "prefill_chunk_" + (Fixed(3, b) + ".pb");
  }

  lemma TooManySteps()
    ensures Less(RequestName(10000), RequestName(9999))
  {
    hide Less;
    assert Decimal(10000) == "10000" by {
      assert Decimal(1000) == "1000" && Decimal(100) == "100";
    }
    assert Decimal(9999) == "9999" by {
      assert Decimal(999) == "999" && Decimal(99) == "99";
    }
    hide Decimal;
    assert RequestName(10000) == "step_" + "10000_request.pb";
    assert RequestName(9999) == "step_" + "9999_request.pb";
    FirstDecides("10000_request.pb", "9999_request.pb");
    LessAfter("step_", "10000_request.pb", "9999_request.pb");
  }

  lemma RequestsSortExactly(n: nat)
    ensures (forall a, b :: 1 <= a < b <= n ==> Less(RequestName(a), RequestName(b))) <==> n < 10000
  {
    if n < 10000 {
      forall a, b | 1 <= a < b <= n
        ensures Less(RequestName(a), RequestName(b))
      {
        RequestsSort(a, b);
      }
    } else {
      TooManySteps();
      LessIsStrict(RequestName(10000), RequestName(9999));
      assert 1 <= 9999 < 10000 <= n;
    }
  }

  // Names of any directory have one order.
  lemma LessOrders(names: set<string>)
    ensures Orders(Less, names)
  {
    forall a, b
      ensures !Less(a, a) && (a != b ==> Less(a, b) || Less(b, a))
    {
      LessIsStrict(a, b);
    }
    forall a, b, c | Less(a, b) && Less(b, c)
      ensures Less(a, c)
    {
      LessTransitive(a, b, c);
    }
  }
}

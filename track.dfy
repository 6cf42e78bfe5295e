/** The pure helpers of the track page (scripts/track.js): the discrete-range
    parser, the controller-record normalisation, the slider range of a
    continuous controller and the Control Change message a control sends. */
module TrackControls {
  import opened Common
  import opened Router
  import DeviceDirectory

  // ---------------------------------------------------------------------
  // parseDiscreteRange

  /** One button of a discrete controller: the value it sends is the middle of its range. */
  datatype RangeOption = RangeOption(labelText: string, minValue: nat, maxValue: nat, midValue: nat)

  /** A label as the parser produces it: non-empty, without a colon, and with
      no white space at either end. */
  predicate CleanLabel(l: string) {
    l != [] && ':' !in l && !IsJsSpace(l[0]) && !IsJsSpace(l[|l| - 1])
  }

  predicate WellFormedOption(o: RangeOption) {
    CleanLabel(o.labelText) && o.midValue == (o.minValue + o.maxValue) / 2
  }

  /** The position of the first occurrence of c. */
  function IndexOf(s: string, c: char): (r: Option<nat>)
    ensures r.None? <==> c !in s
    ensures r.Some? ==> r.value < |s| && s[r.value] == c && c !in s[..r.value]
  {
    if s == [] then None
    else if s[0] == c then Some(0)
    else
      var r := IndexOf(s[1..], c);
      if r.Some? then
        assert s[..r.value + 1] == [s[0]] + s[1..][..r.value];
        Some(r.value + 1)
      else None
  }

  /** Length of the longest prefix of white space (what `\s*` consumes). */
  function SpaceRunLength(s: string): (n: nat)
    ensures n <= |s| && (n == |s| || !IsJsSpace(s[n]))
  {
    if s == [] || !IsJsSpace(s[0]) then 0 else SpaceRunLength(s[1..]) + 1
  }

  lemma TrimmedFrom(s: string)
    ensures forall c :: c in Trim(s) ==> c in s
  {
    var t := TrimStart(s);
    var r := TrimEnd(t);
    forall c | c in r ensures c in s {
      var i :| 0 <= i < |r| && r[i] == c;
      assert t[i] == c;
      assert s[|s| - |t| + i] == c;
    }
  }

  /** The longest prefix of decimal digits. */
  function LeadingDigits(s: string): (r: string)
    ensures |r| <= |s| && AllDigits(r) && r == s[..|r|]
    ensures s != [] && IsDigit(s[0]) ==> r != []
    ensures |r| == |s| || !IsDigit(s[|r|])
  {
    s[..DigitRunLength(s)]
  }

  /** `^([^:]+):` — the non-empty text before the first colon, and what follows it. */
  function SplitAtColon(t: string): (r: Option<(string, string)>)
    ensures r.Some? ==> r.value.0 != [] && ':' !in r.value.0 && t == r.value.0 + [':'] + r.value.1
  {
    var c := IndexOf(t, ':');
    if c.None? || c.value == 0 then None
    else
      assert t == t[..c.value] + [':'] + t[c.value + 1..];
      Some((t[..c.value], t[c.value + 1..]))
  }

  /** `\s*(\d+)(?:-(\d+))?` — a number after optional white space, then
      optionally "-" and a second number; a lone number is both bounds. */
  function ReadBounds(rest: string): Option<(nat, nat)> {
    var digits := rest[SpaceRunLength(rest)..];
    var first := LeadingDigits(digits);
    if first == [] then None
    else
      var minValue := DecimalValue(first);
      var tail := digits[|first|..];
      if |tail| >= 2 && tail[0] == '-' && IsDigit(tail[1]) then Some((minValue, DecimalValue(LeadingDigits(tail[1..]))))
      else Some((minValue, minValue))
  }

  /** The option pushed for a label and its bounds: the value sent is the middle of the range. */
  function MakeOption(labelText: string, minValue: nat, maxValue: nat): RangeOption {
    RangeOption(labelText, minValue, maxValue, (minValue + maxValue) / 2)
  }

  /** `/^([^:]+):\s*(\d+)(?:-(\d+))?/` on the trimmed part, with the label
      trimmed again and the middle value computed; whatever follows the match
      is ignored. */
  function MatchOption(part: string): Option<RangeOption> {
    var t := Trim(part);
    var split := SplitAtColon(t);
    if split.None? then None
    else
      var bounds := ReadBounds(split.value.1);
      if bounds.None? then None
      else
        Some(MakeOption(Trim(split.value.0), bounds.value.0, bounds.value.1))
  }

  lemma TrimNonSpaceStart(x: string)
    requires x != [] && !IsJsSpace(x[0])
    ensures Trim(x) != []
  {
    assert TrimStart(x) == x;
  }

  /** An option's label is clean and its middle value is the floor of the mean of its bounds. */
  lemma MatchOptionWellFormed(part: string)
    ensures MatchOption(part).Some? ==> WellFormedOption(MatchOption(part).value)
  {
    var t := Trim(part);
    var split := SplitAtColon(t);
    if split.Some? && ReadBounds(split.value.1).Some? {
      var x := split.value.0;
      assert x[0] == t[0];
      TrimNonSpaceStart(x);
      TrimmedFrom(x);
    }
  }

  /** An option's label is made of characters of its part. */
  lemma MatchOptionLabelFrom(part: string)
    ensures MatchOption(part).Some? ==> forall c :: c in MatchOption(part).value.labelText ==> c in part
  {
    var t := Trim(part);
    var split := SplitAtColon(t);
    if split.Some? && ReadBounds(split.value.1).Some? {
      var x := split.value.0;
      TrimmedFrom(x);
      TrimmedFrom(part);
      assert forall c :: c in x ==> c in t;
    }
  }

  lemma MatchOptionOf(part: string, x: string, r: string, a: nat, b: nat)
    requires SplitAtColon(Trim(part)) == Some((x, r)) && ReadBounds(r) == Some((a, b))
    ensures MatchOption(part) == Some(MakeOption(Trim(x), a, b))
  {
  }

  /** The result of matching each part, in order. */
  function Matches(parts: seq<string>): (ms: seq<Option<RangeOption>>)
    ensures |ms| == |parts|
  {
    seq(|parts|, i requires 0 <= i < |parts| => MatchOption(parts[i]))
  }

  /** The values of the results that matched, in order. */
  function Somes(ms: seq<Option<RangeOption>>): (os: seq<RangeOption>)
    ensures |os| <= |ms|
    ensures forall o :: o in os ==> Some(o) in ms
  {
    if ms == [] then []
    else
      var last := ms[|ms| - 1];
      var front := Somes(ms[..|ms| - 1]);
      assert forall o :: o in front ==> Some(o) in ms by {
        assert forall m :: m in ms[..|ms| - 1] ==> m in ms;
      }
      front + (if last.Some? then [last.value] else [])
  }

  /** The options the `forEach` loop pushes, one per matching part, in order. */
  function Options(parts: seq<string>): (os: seq<RangeOption>)
    ensures |os| <= |parts|
  {
    Somes(Matches(parts))
  }

  lemma SomesSnoc(ms: seq<Option<RangeOption>>, m: Option<RangeOption>)
    ensures Somes(ms + [m]) == Somes(ms) + (if m.Some? then [m.value] else [])
  {
    assert (ms + [m])[..|ms|] == ms;
  }

  lemma OptionsStep(parts: seq<string>, i: nat)
    requires i < |parts|
    ensures Options(parts[..i + 1]) ==
      Options(parts[..i]) + (if MatchOption(parts[i]).Some? then [MatchOption(parts[i]).value] else [])
  {
    assert Matches(parts[..i + 1]) == Matches(parts[..i]) + [MatchOption(parts[i])];
    SomesSnoc(Matches(parts[..i]), MatchOption(parts[i]));
  }

  lemma {:induction false} SomesAppend(a: seq<Option<RangeOption>>, b: seq<Option<RangeOption>>)
    ensures Somes(a + b) == Somes(a) + Somes(b)
    decreases |b|
  {
    if b == [] {
      assert a + b == a;
    } else {
      var front := b[..|b| - 1];
      assert (a + b)[..|a + b| - 1] == a + front;
      assert (a + b)[|a + b| - 1] == b[|b| - 1];
      SomesAppend(a, front);
    }
  }

  /** Results that all matched give back every value. */
  lemma {:induction false} SomesAll(os: seq<RangeOption>)
    ensures Somes(seq(|os|, i requires 0 <= i < |os| => Some(os[i]))) == os
    decreases |os|
  {
    if os != [] {
      var n := |os| - 1;
      var ws := seq(|os|, i requires 0 <= i < |os| => Some(os[i]));
      assert ws[..n] == seq(n, i requires 0 <= i < n => Some(os[..n][i]));
      SomesAll(os[..n]);
      assert os == os[..n] + [os[n]];
    }
  }

  function ParseDiscreteRangeSpec(rangeString: Option<string>): seq<RangeOption> {
    if rangeString.None? || rangeString.value == "" then [] else Options(Split(rangeString.value, ','))
  }

  method ParseDiscreteRange(rangeString: Option<string>) returns (options: seq<RangeOption>)
    ensures options == ParseDiscreteRangeSpec(rangeString)
    ensures rangeString.None? || rangeString.value == "" ==> options == []
  {
    options := [];
    if rangeString.None? || rangeString.value == "" {
      return;
    }
    var parts := Split(rangeString.value, ',');
    var i := 0;
    while i < |parts|
      invariant 0 <= i <= |parts|
      invariant options == Options(parts[..i])
    {
      OptionsStep(parts, i);
      var match_ := MatchOption(parts[i]);
      if match_.Some? {
        options := options + [match_.value];
      }
      i := i + 1;
    }
    assert parts[..i] == parts;
  }

  /** Parts are handled independently and the options keep the parts' order. */
  lemma OptionsAppend(a: seq<string>, b: seq<string>)
    ensures Options(a + b) == Options(a) + Options(b)
  {
    var ms, ma, mb := Matches(a + b), Matches(a), Matches(b);
    forall i | 0 <= i < |a + b|
      ensures ms[i] == (ma + mb)[i]
    {
      if i < |a| {
        assert (a + b)[i] == a[i];
      } else {
        assert (a + b)[i] == b[i - |a|];
      }
    }
    assert ms == ma + mb;
    SomesAppend(ma, mb);
  }

  /** Every option of a parsed range is well formed and its label has no comma. */
  lemma ParsedOptionsShape(rangeString: Option<string>)
    ensures forall o :: o in ParseDiscreteRangeSpec(rangeString) ==> WellFormedOption(o) && ',' !in o.labelText
    ensures rangeString.Some? ==> |ParseDiscreteRangeSpec(rangeString)| <= CountChar(rangeString.value, ',') + 1
  {
    if rangeString.Some? && rangeString.value != "" {
      var parts := Split(rangeString.value, ',');
      SplitCount(rangeString.value, ',');
      OptionsLabelsFrom(parts);
    }
  }

  lemma OptionsLabelsFrom(parts: seq<string>)
    requires forall p :: p in parts ==> ',' !in p
    ensures forall o :: o in Options(parts) ==> WellFormedOption(o) && ',' !in o.labelText
  {
    var ms := Matches(parts);
    forall o | o in Options(parts)
      ensures WellFormedOption(o) && ',' !in o.labelText
    {
      assert Some(o) in ms;
      var i :| 0 <= i < |ms| && ms[i] == Some(o);
      assert parts[i] in parts;
      MatchOptionWellFormed(parts[i]);
      MatchOptionLabelFrom(parts[i]);
    }
  }

  /** The text of one option, "Label: min-max". */
  function FormatOption(o: RangeOption): string {
    o.labelText + ": " + NatToString(o.minValue) + "-" + NatToString(o.maxValue)
  }

  function JoinWithComma(ps: seq<string>): string {
    if ps == [] then "" else if |ps| == 1 then ps[0] else ps[0] + "," + JoinWithComma(ps[1..])
  }

  lemma DigitsAreNotSpace(s: string)
    requires AllDigits(s)
    ensures forall i :: 0 <= i < |s| ==> !IsJsSpace(s[i]) && !IsLineTerminator(s[i]) && s[i] != ':' && s[i] != ','
  {
  }

  /** The digit run of a numeral followed by a non-digit is the numeral. */
  lemma {:induction false} DigitRunOfNumeral(x: string, y: string)
    requires AllDigits(x) && (y == [] || !IsDigit(y[0]))
    ensures DigitRunLength(x + y) == |x|
  {
    if x != [] {
      assert (x + y)[1..] == x[1..] + y;
      DigitRunOfNumeral(x[1..], y);
    } else {
      assert x + y == y;
    }
  }

  lemma TrimClean(s: string)
    requires s == [] || (!IsJsSpace(s[0]) && !IsJsSpace(s[|s| - 1]))
    ensures Trim(s) == s
  {
    assert TrimStart(s) == s;
  }

  lemma {:induction false} IndexOfAfter(l: string, c: char, r: string)
    requires c !in l
    ensures IndexOf(l + [c] + r, c) == Some(|l|)
  {
    if l != [] {
      assert (l + [c] + r)[1..] == l[1..] + [c] + r;
      assert c !in l[1..] by { assert forall x :: x in l[1..] ==> x in l; }
      IndexOfAfter(l[1..], c, r);
    }
  }

  lemma SplitAtColonOf(l: string, r: string)
    requires l != [] && ':' !in l
    ensures SplitAtColon(l + [':'] + r) == Some((l, r))
  {
    IndexOfAfter(l, ':', r);
    var t := l + [':'] + r;
    assert t[..|l|] == l && t[|l| + 1..] == r;
  }

  lemma SpaceRunOne(x: string)
    requires x != [] && !IsJsSpace(x[0])
    ensures SpaceRunLength(" " + x) == 1
  {
    assert (" " + x)[1..] == x;
  }

  lemma {:induction false} LeadingDigitsOfNumeral(x: string, y: string)
    requires AllDigits(x) && (y == [] || !IsDigit(y[0]))
    ensures LeadingDigits(x + y) == x
  {
    DigitRunOfNumeral(x, y);
    assert (x + y)[..|x|] == x;
  }

  lemma ReadBoundsOfRange(a: nat, b: nat)
    ensures ReadBounds(" " + NatToString(a) + "-" + NatToString(b)) == Some((a, b))
  {
    var A, B := NatToString(a), NatToString(b);
    var rest := " " + A + "-" + B;
    assert rest == " " + (A + "-" + B);
    DigitsAreNotSpace(A);
    SpaceRunOne(A + "-" + B);
    var digits := rest[1..];
    assert digits == A + ("-" + B);
    LeadingDigitsOfNumeral(A, "-" + B);
    DecimalOfNatToString(a);
    var tail := digits[|A|..];
    assert tail == "-" + B;
    assert tail[1..] == B;
    LeadingDigitsOfNumeral(B, []);
    assert B + [] == B;
    DecimalOfNatToString(b);
  }

  lemma ReadBoundsOfNumber(a: nat)
    ensures ReadBounds(" " + NatToString(a)) == Some((a, a))
  {
    var A := NatToString(a);
    var rest := " " + A;
    DigitsAreNotSpace(A);
    SpaceRunOne(A);
    assert rest[1..] == A;
    LeadingDigitsOfNumeral(A, []);
    assert A + [] == A;
    assert A[|A|..] == [];
    DecimalOfNatToString(a);
  }

  /** A formatted option is its label, a colon and the bounds text, and trimming leaves it alone. */
  lemma FormatShape(o: RangeOption)
    requires WellFormedOption(o)
    ensures FormatOption(o) == o.labelText + [':'] + (" " + NatToString(o.minValue) + "-" + NatToString(o.maxValue))
    ensures Trim(FormatOption(o)) == FormatOption(o)
  {
    var l, A, B := o.labelText, NatToString(o.minValue), NatToString(o.maxValue);
    var s := FormatOption(o);
    assert s == l + [':'] + (" " + A + "-" + B);
    DigitsAreNotSpace(B);
    assert s[0] == l[0] && s[|s| - 1] == B[|B| - 1];
    TrimClean(s);
  }

  /** Reading back a formatted option gives the option. */
  lemma MatchFormatted(o: RangeOption)
    requires WellFormedOption(o)
    ensures MatchOption(FormatOption(o)) == Some(o)
  {
    var l := o.labelText;
    var rest := " " + NatToString(o.minValue) + "-" + NatToString(o.maxValue);
    FormatShape(o);
    SplitAtColonOf(l, rest);
    ReadBoundsOfRange(o.minValue, o.maxValue);
    TrimClean(l);
    MatchOptionOf(FormatOption(o), l, rest, o.minValue, o.maxValue);
  }

  /** A single-value part splits at its colon into the label and " n", which reads as n..n. */
  lemma SingleParts(l: string, n: nat)
    requires CleanLabel(l)
    ensures SplitAtColon(Trim(l + ": " + NatToString(n))) == Some((l, " " + NatToString(n)))
    ensures ReadBounds(" " + NatToString(n)) == Some((n, n))
  {
    var A := NatToString(n);
    var s := l + ": " + A;
    assert s == l + [':'] + (" " + A);
    DigitsAreNotSpace(A);
    assert s[0] == l[0] && s[|s| - 1] == A[|A| - 1];
    TrimClean(s);
    SplitAtColonOf(l, " " + A);
    ReadBoundsOfNumber(n);
  }

  /** A part with a single number gives an option whose three values are that number. */
  lemma SingleValueOption(l: string, n: nat)
    requires CleanLabel(l)
    ensures MatchOption(l + ": " + NatToString(n)) == Some(RangeOption(l, n, n, n))
  {
    SingleParts(l, n);
    MatchOptionOf(l + ": " + NatToString(n), l, " " + NatToString(n), n, n);
    TrimClean(l);
    MakeSingle(l, n);
  }

  lemma MakeSingle(l: string, n: nat)
    ensures MakeOption(l, n, n) == RangeOption(l, n, n, n)
  {
    assert (n + n) / 2 == n by {
      assert n + n == 2 * n;
    }
  }

  lemma {:induction false} SplitJoined(ps: seq<string>)
    requires ps != [] && forall p :: p in ps ==> ',' !in p
    ensures Split(JoinWithComma(ps), ',') == ps
    decreases |ps|
  {
    if |ps| == 1 {
      SplitNoSeparator(ps[0], ',');
    } else {
      assert forall p :: p in ps[1..] ==> p in ps;
      SplitJoined(ps[1..]);
      assert ps[0] in ps;
      SplitAfter(ps[0], ',', JoinWithComma(ps[1..]));
      assert ps == [ps[0]] + ps[1..];
    }
  }

  lemma {:induction false} SplitNoSeparator(x: string, sep: char)
    requires sep !in x
    ensures Split(x, sep) == [x]
  {
    if x != [] {
      assert sep !in x[1..] by { assert forall c :: c in x[1..] ==> c in x; }
      SplitNoSeparator(x[1..], sep);
      assert x == [x[0]] + x[1..];
    }
  }

  lemma {:induction false} SplitAfter(x: string, sep: char, r: string)
    requires sep !in x
    ensures Split(x + [sep] + r, sep) == [x] + Split(r, sep)
  {
    if x == [] {
      assert x + [sep] + r == [sep] + r;
      assert ([sep] + r)[1..] == r;
    } else {
      assert sep !in x[1..] by { assert forall c :: c in x[1..] ==> c in x; }
      SplitAfter(x[1..], sep, r);
      assert (x + [sep] + r)[1..] == x[1..] + [sep] + r;
      assert x == [x[0]] + x[1..];
    }
  }

  function FormatOptions(os: seq<RangeOption>): (ps: seq<string>)
    ensures |ps| == |os| && forall i :: 0 <= i < |os| ==> ps[i] == FormatOption(os[i])
  {
    seq(|os|, i requires 0 <= i < |os| => FormatOption(os[i]))
  }

  lemma OptionsOfFormatted(os: seq<RangeOption>)
    requires forall o :: o in os ==> WellFormedOption(o)
    ensures Options(FormatOptions(os)) == os
  {
    var ps := FormatOptions(os);
    var ws := seq(|os|, i requires 0 <= i < |os| => Some(os[i]));
    forall i | 0 <= i < |os|
      ensures Matches(ps)[i] == ws[i]
    {
      assert os[i] in os;
      MatchFormatted(os[i]);
    }
    assert Matches(ps) == ws;
    SomesAll(os);
  }

  /** A range written as "Label: min-max" parts joined by commas parses back
      to the options it was written from. */
  lemma ParseFormatRoundTrip(os: seq<RangeOption>)
    requires forall o :: o in os ==> WellFormedOption(o) && ',' !in o.labelText
    ensures ParseDiscreteRangeSpec(Some(JoinWithComma(FormatOptions(os)))) == os
  {
    if os != [] {
      var ps := FormatOptions(os);
      forall p | p in ps ensures ',' !in p {
        var i :| 0 <= i < |ps| && ps[i] == p;
        var o := os[i];
        assert o in os;
        DigitsAreNotSpace(NatToString(o.minValue));
        DigitsAreNotSpace(NatToString(o.maxValue));
        assert p == o.labelText + ": " + NatToString(o.minValue) + "-" + NatToString(o.maxValue);
      }
      SplitJoined(ps);
      OptionsOfFormatted(os);
      assert JoinWithComma(ps) != "" by { assert |ps[0]| > 0; if |ps| > 1 { assert |ps[0] + "," + JoinWithComma(ps[1..])| > 0; } }
    }
  }

  /** White space around a part makes no difference. */
  lemma MatchIgnoresLeadingSpace(part: string)
    ensures MatchOption(" " + part) == MatchOption(part)
  {
    assert (" " + part)[1..] == part;
    assert TrimStart(" " + part) == TrimStart(part);
  }

  // ---------------------------------------------------------------------
  // The slider of a continuous controller (createController)

  /** The next digit at or after q, unless a line terminator comes first
      (the lazy `.*?` does not cross lines). */
  function NextDigitOnLine(s: string, q: nat): (r: Option<nat>)
    requires q <= |s|
    ensures r.Some? ==> q <= r.value < |s| && IsDigit(s[r.value])
    decreases |s| - q
  {
    if q == |s| then None
    else if IsDigit(s[q]) then Some(q)
    else if IsLineTerminator(s[q]) then None
    else NextDigitOnLine(s, q + 1)
  }

  /** The second group of `/(\d+).*?(\d+)/`, trying start positions from p on:
      the greedy first number is followed by the next number on its line; if
      there is none, the first number gives back its last digit. */
  function SecondNumberFrom(s: string, p: nat): (g: Option<string>)
    requires p <= |s|
    ensures g.Some? ==> g.value != [] && AllDigits(g.value)
    decreases |s| - p
  {
    if p == |s| then None
    else if !IsDigit(s[p]) then SecondNumberFrom(s, p + 1)
    else
      var first := LeadingDigits(s[p..]);
      var q := NextDigitOnLine(s, p + |first|);
      if q.Some? then Some(LeadingDigits(s[q.value..]))
      else if |first| >= 2 then Some([first[|first| - 1]])
      else SecondNumberFrom(s, p + 1)
  }

  /** `maxValue`: 127 unless the value range has a second number. */
  function SliderMax(valueRange: Option<string>): nat {
    if valueRange.None? || valueRange.value == "" then 127
    else
      var g := SecondNumberFrom(valueRange.value, 0);
      if g.None? then 127 else DecimalValue(g.value)
  }

  /** The slider starts at the middle of its range. */
  function SliderDefault(valueRange: Option<string>): (d: nat)
    ensures 2 * d <= SliderMax(valueRange) <= 2 * d + 1
  {
    SliderMax(valueRange) / 2
  }

  /** For a range "a-b" the slider goes up to b. */
  lemma SliderMaxOfRange(a: nat, b: nat)
    ensures SliderMax(Some(NatToString(a) + "-" + NatToString(b))) == b
  {
    var A, B := NatToString(a), NatToString(b);
    var s := A + "-" + B;
    assert s[0] == A[0];
    assert s[0..] == A + ("-" + B);
    LeadingDigitsOfNumeral(A, "-" + B);
    assert s[|A|] == '-' && s[|A| + 1] == B[0];
    assert NextDigitOnLine(s, |A| + 1) == Some(|A| + 1);
    assert s[|A| + 1..] == B;
    LeadingDigitsOfNumeral(B, []);
    assert B + [] == B;
    DecimalOfNatToString(b);
  }

  /** The stored continuous range "0-127" gives the slider 0..127, starting at 63. */
  lemma ContinuousSlider()
    ensures SliderMax(Some("0-127")) == 127 && SliderDefault(Some("0-127")) == 63
  {
    SliderMaxOfRange(0, 127);
    assert DigitChar(0) == '0' && DigitChar(1) == '1' && DigitChar(2) == '2' && DigitChar(7) == '7';
    assert NatToString(0) == "0";
    assert NatToString(1) == "1";
    assert NatToString(12) == NatToString(1) + [DigitChar(2)] == "12";
    assert NatToString(127) == NatToString(12) + [DigitChar(7)] == "127";
    assert NatToString(0) + "-" + NatToString(127) == "0-127";
  }

  /** A lone number is not a range, yet the pattern still splits it: "64" makes
      the first group "6" and the second "4". */
  lemma SliderMaxOfLoneNumber()
    ensures SliderMax(Some("64")) == 4
  {
    var s := "64";
    assert s[0..] == s;
    LeadingDigitsOfNumeral(s, []);
    assert s + [] == s;
    assert NextDigitOnLine(s, 2) == None;
    assert [s[1]] == "4";
  }

  // ---------------------------------------------------------------------
  // normalizeControllerData

  /** A controller record in either format: the device directory's
      {name, ccNumber, type, range} or the legacy {control_name, cc_number,
      value_range, description}. None is an undefined property. */
  datatype Control = Control(
    name: Option<string>,
    ccNumber: Option<int>,
    ctype: Option<string>,
    range: Option<string>,
    controlName: Option<string>,
    legacyCc: Option<int>,
    valueRange: Option<string>,
    description: Option<string>)

  predicate IsCustom(c: Control) {
    c.name.Some? && c.name.value != "" && c.ccNumber.Some?
  }

  predicate IsLegacy(c: Control) {
    c.controlName.Some? && c.controlName.value != "" && c.legacyCc.Some?
  }

  /** `x || y` on numbers. */
  function OrNumber(x: Option<int>, y: int): int {
    if x.Some? && x.value != 0 then x.value else y
  }

  const NoFields := Control(None, None, None, None, None, None, None, None)

  function NormalizeControllerData(c: Control): (r: Control)
    ensures IsLegacy(r)
    ensures IsLegacy(c) && !IsCustom(c) ==> r == c
    ensures IsCustom(c) ==> r.controlName == c.name && r.legacyCc == c.ccNumber && r.ctype == c.ctype
    ensures IsCustom(c) && c.ctype == Some("continuous") ==> r.valueRange == Some("0-127")
    ensures IsCustom(c) && c.ctype != Some("continuous") ==> r.valueRange == c.range
    ensures IsCustom(c) ==>
      r.description == Some(c.name.value + " (" + (if c.ctype.Some? then c.ctype.value else "undefined") + ")")
    ensures !IsCustom(c) && !IsLegacy(c) ==>
      r.controlName == Some(if c.name.Some? && c.name.value != "" then c.name.value else "Unknown") &&
      r.legacyCc == Some(OrNumber(c.ccNumber, OrNumber(c.legacyCc, 1))) &&
      r.ctype == Some("continuous") && r.valueRange == Some("0-127") &&
      r.description == Some("Unknown controller")
  {
    if IsCustom(c) then
      NoFields.(
        controlName := c.name,
        legacyCc := c.ccNumber,
        ctype := c.ctype,
        valueRange := if c.ctype == Some("continuous") then Some("0-127") else c.range,
        description := Some(c.name.value + " (" + (if c.ctype.Some? then c.ctype.value else "undefined") + ")"))
    else if IsLegacy(c) then c
    else
      NoFields.(
        controlName := Some(if c.name.Some? && c.name.value != "" then c.name.value else "Unknown"),
        legacyCc := Some(OrNumber(c.ccNumber, OrNumber(c.legacyCc, 1))),
        ctype := Some("continuous"),
        valueRange := Some("0-127"),
        description := Some("Unknown controller"))
  }

  /** Normalising a normalised record changes nothing. */
  lemma NormalizeIdempotent(c: Control)
    ensures NormalizeControllerData(NormalizeControllerData(c)) == NormalizeControllerData(c)
  {
  }

  /** A controller saved by the device directory, as the track page receives it. */
  function FromDirectory(c: DeviceDirectory.Controller): Control {
    NoFields.(name := Some(c.name), ccNumber := Some(c.ccNumber), ctype := Some(c.ctype), range := c.range)
  }

  /** The directory already stores "0-127" for continuous controllers, so the
      normalised range is the stored one, and a continuous slider spans 0..127. */
  lemma DirectoryControllerRange(c: DeviceDirectory.Controller)
    requires DeviceDirectory.GoodController(c)
    ensures NormalizeControllerData(FromDirectory(c)).valueRange == c.range
    ensures NormalizeControllerData(FromDirectory(c)).legacyCc == Some(c.ccNumber)
    ensures c.ctype == "continuous" ==> SliderMax(NormalizeControllerData(FromDirectory(c)).valueRange) == 127
  {
    if c.ctype == "continuous" {
      ContinuousSlider();
    }
  }

  // ---------------------------------------------------------------------
  // sendControlChange

  /** `[0xB0 + midiChannel, ccNumber, value]`. */
  function CcMessage(midiChannel: int, ccNumber: int, value: int): (m: seq<int>)
    ensures |m| == 3 && m[0] == 0xB0 + midiChannel && m[1] == ccNumber && m[2] == value
  {
    [0xB0 + midiChannel, ccNumber, value]
  }

  /** On an assigned channel and with 7-bit data, the message is a valid
      Control Change on that channel, and the router leaves its channel nibble
      and controller number alone. */
  lemma CcMessageValid(midiChannel: int, ccNumber: int, value: int)
    requires 0 <= midiChannel <= 15 && 0 <= ccNumber <= 127 && 0 <= value <= 127
    ensures var m := CcMessage(midiChannel, ccNumber, value);
      (forall i :: 0 <= i < 3 ==> 0 <= m[i] < 256) &&
      ValidateMessage(m) && MessageType(m[0]) == 0xB0 && m[0] % 16 == midiChannel
  {
  }

  /** A channel of 16 would already be a Program Change status. */
  lemma CcMessageChannelOverflow()
    ensures MessageType(CcMessage(16, 7, 100)[0]) == 0xC0
  {
  }

  /** What the track page emits on its socket: "request-track-assignment" and "track-midi-message". */
  datatype Emitted =
    | RequestTrackAssignment(socketId: string)
    | TrackMidiMessage(socketId: string, message: seq<int>)

  /** The state of the track page that `sendControlChange` reads. */
  class TrackClient {
    /** Whether `io(...)` created a socket (it does once initials and session are known). */
    const socketOpen: bool
    var mySocketId: Option<string>
    /** -1 until the sequencer assigns a channel. */
    var midiChannel: int
    var emitted: seq<Emitted>

    constructor (socketOpen: bool)
      ensures this.socketOpen == socketOpen && mySocketId == None && midiChannel == -1 && emitted == []
    {
      this.socketOpen := socketOpen;
      mySocketId := None;
      midiChannel := -1;
      emitted := [];
    }

    /** The socket's "connect" event: record the id and ask for the track assignment. */
    method OnConnect(socketId: string)
      modifies this
      ensures mySocketId == Some(socketId) && midiChannel == old(midiChannel)
      ensures emitted == old(emitted) + [RequestTrackAssignment(socketId)]
    {
      mySocketId := Some(socketId);
      emitted := emitted + [RequestTrackAssignment(socketId)];
    }

    /** A "track-assignment" message takes effect only when it names this socket. */
    method OnTrackAssignment(socketId: string, channel: int)
      modifies this
      ensures midiChannel == if mySocketId == Some(socketId) then channel else old(midiChannel)
      ensures mySocketId == old(mySocketId) && emitted == old(emitted)
    {
      if mySocketId == Some(socketId) {
        midiChannel := channel;
      }
    }

    predicate CanSend()
      reads this
    {
      socketOpen && mySocketId.Some? && mySocketId.value != "" && midiChannel != -1
    }

    method SendControlChange(ccNumber: int, value: int)
      modifies this
      ensures mySocketId == old(mySocketId) && midiChannel == old(midiChannel)
      ensures emitted == old(emitted) +
        (if old(CanSend()) then [TrackMidiMessage(mySocketId.value, CcMessage(midiChannel, ccNumber, value))] else [])
    {
      if socketOpen && mySocketId.Some? && mySocketId.value != "" && midiChannel != -1 {
        var message := [0xB0 + midiChannel, ccNumber, value];
        emitted := emitted + [TrackMidiMessage(mySocketId.value, message)];
      }
    }
  }
}

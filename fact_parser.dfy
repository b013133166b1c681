/** Turning the text model's reply into a list of short facts: keep the lines
    that look like items of a numbered list, strip the number, trim, drop the
    empty ones; fall back to three fixed sentences when nothing is left. */
module FactParser {
  import opened JsString

  /** `s.filter(p)` */
  function Filter<T>(s: seq<T>, p: T -> bool): (r: seq<T>)
    ensures |r| <= |s|
    ensures forall i :: 0 <= i < |r| ==> p(r[i])
  {
    if s == [] then [] else (if p(s[0]) then [s[0]] else []) + Filter(s[1..], p)
  }

  /** `s.map(f)` */
  function Map<T, U>(s: seq<T>, f: T -> U): (r: seq<U>)
    ensures |r| == |s|
    ensures forall i :: 0 <= i < |r| ==> r[i] == f(s[i])
  {
    if s == [] then [] else [f(s[0])] + Map(s[1..], f)
  }

  lemma {:induction false} FilterAppend<T>(a: seq<T>, b: seq<T>, p: T -> bool)
    ensures Filter(a + b, p) == Filter(a, p) + Filter(b, p)
  {
    if a != [] {
      assert (a + b)[1..] == a[1..] + b;
      FilterAppend(a[1..], b, p);
    } else {
      assert a + b == b;
    }
  }

  lemma {:induction false} MapAppend<T, U>(a: seq<T>, b: seq<T>, f: T -> U)
    ensures Map(a + b, f) == Map(a, f) + Map(b, f)
  {
    if a != [] {
      assert (a + b)[1..] == a[1..] + b;
      MapAppend(a[1..], b, f);
    } else {
      assert a + b == b;
    }
  }

  /** Length of the run of `\d` characters at the start of `s`. */
  function LeadingDigits(s: string): (n: nat)
    ensures n <= |s|
    ensures forall k :: 0 <= k < n ==> IsDigit(s[k])
    ensures n < |s| ==> !IsDigit(s[n])
  {
    if s != [] && IsDigit(s[0]) then 1 + LeadingDigits(s[1..]) else 0
  }

  /** `/^\d+\./.test(s)`: one or more digits, then a full stop. */
  predicate HasNumberDot(s: string) {
    0 < LeadingDigits(s) < |s| && s[LeadingDigits(s)] == '.'
  }

  /** The first filter: `line.trim().match(/^\d+\./)`. */
  predicate IsListItem(line: string) {
    HasNumberDot(Trim(line))
  }

  /** `line.replace(/^\d+\.\s*\/, '')` on the line as it is, not trimmed. */
  function StripNumberPrefix(line: string): string {
    if HasNumberDot(line) then TrimStart(line[LeadingDigits(line) + 1..]) else line
  }

  /** The map step: strip the number, then trim. */
  function ToFact(line: string): string {
    Trim(StripNumberPrefix(line))
  }

  /** The last filter: `fact.length > 0`. */
  predicate IsNonEmpty(s: string) {
    |s| > 0
  }

  /** No element of `facts` is the empty string. */
  predicate NoEmptyFact(facts: seq<string>) {
    forall i :: 0 <= i < |facts| ==> facts[i] != []
  }

  /** The `filter` / `map` / `filter` chain applied to the lines of a reply. */
  function FactsOf(lines: seq<string>): (facts: seq<string>)
    ensures |facts| <= |lines|
    ensures NoEmptyFact(facts)
  {
    Filter(Map(Filter(lines, IsListItem), ToFact), IsNonEmpty)
  }

  /** The facts parsed from the text of a reply: never an empty string, and at
      most one per line. */
  function ParseFacts(text: string): (facts: seq<string>)
    ensures NoEmptyFact(facts)
    ensures |facts| <= Count(text, '\n') + 1
  {
    SplitLength(text, '\n');
    FactsOf(Split(text, '\n'))
  }

  /** A line yields a fact when its trimmed form is a numbered item and what
      remains after stripping the number is not empty. */
  predicate Contributes(line: string) {
    IsListItem(line) && IsNonEmpty(ToFact(line))
  }

  /** `idx` lists, in increasing order, exactly the positions `j` of `s` with
      `p(s[j])` and `q(f(s[j]))`, and `out` holds `f` of those elements in that
      order: what `s.filter(p).map(f).filter(q)` keeps, and where it came from. */
  ghost predicate Selects<T, U>(out: seq<U>, s: seq<T>, idx: seq<int>, p: T -> bool, f: T -> U, q: U -> bool) {
    Positions(out, s, idx, f) && Increasing(idx) && Members(s, idx, p, f, q)
  }

  /** Output `i` is `f` of the element at position `idx[i]`. */
  ghost predicate Positions<T, U>(out: seq<U>, s: seq<T>, idx: seq<int>, f: T -> U) {
    |idx| == |out| && forall i :: 0 <= i < |idx| ==> 0 <= idx[i] < |s| && out[i] == f(s[idx[i]])
  }

  ghost predicate Increasing(idx: seq<int>) {
    forall i, j :: 0 <= i < j < |idx| ==> idx[i] < idx[j]
  }

  /** The positions in `idx` are exactly those of the kept elements. */
  ghost predicate Members<T, U>(s: seq<T>, idx: seq<int>, p: T -> bool, f: T -> U, q: U -> bool) {
    forall j :: 0 <= j < |s| ==> (j in idx <==> p(s[j]) && q(f(s[j])))
  }

  /** The facts come from exactly the contributing lines, in line order. */
  ghost predicate Selection(facts: seq<string>, lines: seq<string>, idx: seq<int>) {
    Selects(facts, lines, idx, IsListItem, ToFact, IsNonEmpty)
  }

  /** The chain looks at one element at a time. */
  lemma {:induction false} ChainCons<T, U>(x: T, rest: seq<T>, p: T -> bool, f: T -> U, q: U -> bool)
    ensures Filter(Map(Filter([x] + rest, p), f), q)
      == (if p(x) && q(f(x)) then [f(x)] else []) + Filter(Map(Filter(rest, p), f), q)
  {
    var first := if p(x) then [x] else [];
    assert Filter([x] + rest, p) == first + Filter(rest, p) by {
      assert ([x] + rest)[1..] == rest;
    }
    MapAppend(first, Filter(rest, p), f);
    FilterAppend(Map(first, f), Map(Filter(rest, p), f), q);
    if p(x) {
      assert Map(first, f) == [f(x)];
      assert Filter([f(x)], q) == if q(f(x)) then [f(x)] else [] by {
        assert [f(x)][1..] == [];
      }
    } else {
      assert Map(first, f) == [];
    }
  }

  /** Every position moved up by one. */
  function Shift(idx: seq<int>): (r: seq<int>)
    ensures |r| == |idx|
    ensures forall i :: 0 <= i < |r| ==> r[i] == idx[i] + 1
  {
    if idx == [] then [] else [idx[0] + 1] + Shift(idx[1..])
  }

  /** The positions and elements a selection keeps after one element is put
      in front (`SelectsCons`, first part). */
  lemma {:induction false} ConsPositions<T, U>(x: T, rest: seq<T>, out: seq<U>, idx: seq<int>, keep: bool, f: T -> U)
    requires Positions(out, rest, idx, f)
    ensures Positions((if keep then [f(x)] else []) + out, [x] + rest, (if keep then [0] else []) + Shift(idx), f)
  {
    var s := [x] + rest;
    var head: seq<int> := if keep then [0] else [];
    var idx2 := head + Shift(idx);
    var out2 := (if keep then [f(x)] else []) + out;
    forall i | 0 <= i < |idx2|
      ensures 0 <= idx2[i] < |s| && out2[i] == f(s[idx2[i]])
    {
      if i >= |head| {
        var k := i - |head|;
        assert idx2[i] == idx[k] + 1 && out2[i] == out[k];
        assert s[idx[k] + 1] == rest[idx[k]];
      }
    }
  }

  /** The positions stay increasing (`SelectsCons`, second part). */
  lemma {:induction false} ConsIncreasing(keep: bool, idx: seq<int>)
    requires Increasing(idx)
    requires forall i :: 0 <= i < |idx| ==> idx[i] >= 0
    ensures Increasing((if keep then [0] else []) + Shift(idx))
  {
    var shifted := Shift(idx);
    if keep {
      var idx2 := [0] + shifted;
      forall i, j | 0 <= i < j < |idx2| ensures idx2[i] < idx2[j] {
        assert idx2[j] == shifted[j - 1];
        if i > 0 {
          assert idx2[i] == shifted[i - 1];
        }
      }
    }
  }

  /** Exactly the positions that satisfy the condition are kept (`SelectsCons`,
      third part). */
  lemma {:induction false} ConsMembers<T, U>(x: T, rest: seq<T>, idx: seq<int>, p: T -> bool, f: T -> U, q: U -> bool)
    requires Members(rest, idx, p, f, q)
    requires forall i :: 0 <= i < |idx| ==> idx[i] >= 0
    ensures Members([x] + rest, (if p(x) && q(f(x)) then [0] else []) + Shift(idx), p, f, q)
  {
    var s := [x] + rest;
    var shifted := Shift(idx);
    var idx2 := (if p(x) && q(f(x)) then [0] else []) + shifted;
    forall j | 0 <= j < |s| ensures j in idx2 <==> p(s[j]) && q(f(s[j])) {
      if j == 0 {
        assert 0 !in shifted;
      } else {
        assert s[j] == rest[j - 1];
        if j - 1 in idx {
          var k :| 0 <= k < |idx| && idx[k] == j - 1;
          assert shifted[k] == j;
        }
        if j in shifted {
          var k :| 0 <= k < |shifted| && shifted[k] == j;
          assert idx[k] == j - 1;
        }
      }
    }
  }

  /** Putting one element in front of a selection shifts it by one position and
      adds position 0 when that element is kept. */
  lemma {:induction false} SelectsCons<T, U>(x: T, rest: seq<T>, out: seq<U>, idx: seq<int>,
                                              p: T -> bool, f: T -> U, q: U -> bool)
    requires Selects(out, rest, idx, p, f, q)
    ensures var keep := p(x) && q(f(x));
      Selects((if keep then [f(x)] else []) + out, [x] + rest, (if keep then [0] else []) + Shift(idx), p, f, q)
  {
    var keep := p(x) && q(f(x));
    assert forall i :: 0 <= i < |idx| ==> idx[i] >= 0;
    ConsPositions(x, rest, out, idx, keep, f);
    ConsIncreasing(keep, idx);
    ConsMembers(x, rest, idx, p, f, q);
  }

  /** `s.filter(p).map(f).filter(q)` is a selection: there are increasing
      positions, exactly those of the kept elements, that say where each output
      came from. */
  lemma {:induction false} ChainSelects<T, U>(s: seq<T>, p: T -> bool, f: T -> U, q: U -> bool)
    ensures exists idx :: Selects(Filter(Map(Filter(s, p), f), q), s, idx, p, f, q)
  {
    if s == [] {
      var none: seq<int> := [];
      assert Filter(Map(Filter(s, p), f), q) == [];
      assert Selects(Filter(Map(Filter(s, p), f), q), s, none, p, f, q);
    } else {
      var rest := s[1..];
      ChainSelects(rest, p, f, q);
      var idx :| Selects(Filter(Map(Filter(rest, p), f), q), rest, idx, p, f, q);
      SelectsCons(s[0], rest, Filter(Map(Filter(rest, p), f), q), idx, p, f, q);
      assert [s[0]] + rest == s;
      ChainCons(s[0], rest, p, f, q);
      var keep := p(s[0]) && q(f(s[0]));
      assert Selects(Filter(Map(Filter(s, p), f), q), s, (if keep then [0] else []) + Shift(idx), p, f, q);
    }
  }

  /** The modelled part of `generateSliderFacts` parses exactly the facts of the
      contributing lines of the reply, in order. */
  lemma ParseFactsSelection(text: string)
    ensures exists idx :: Selection(ParseFacts(text), Split(text, '\n'), idx)
  {
    var lines := Split(text, '\n');
    ChainSelects(lines, IsListItem, ToFact, IsNonEmpty);
    var idx :| Selects(FactsOf(lines), lines, idx, IsListItem, ToFact, IsNonEmpty);
    assert ParseFacts(text) == FactsOf(lines);
    assert Selection(ParseFacts(text), lines, idx);
  }

  /** `TrimStart` leaves nothing more to trim at the start. */
  lemma TrimStartIdempotent(s: string)
    ensures TrimStart(TrimStart(s)) == TrimStart(s)
  {
  }

  /** A line that starts with its number loses the number, the full stop and
      the white space around the rest. */
  lemma ToFactOfNumberedLine(line: string)
    requires HasNumberDot(line)
    ensures ToFact(line) == Trim(line[LeadingDigits(line) + 1..])
  {
    TrimStartIdempotent(line[LeadingDigits(line) + 1..]);
  }

  /** The number is stripped from the untrimmed line, so an indented item keeps
      its "N." in the fact. */
  lemma IndentedItemKeepsNumber(line: string)
    requires |line| > 0 && IsWhiteSpace(line[0]) && IsListItem(line)
    ensures ToFact(line) == Trim(line)
    ensures HasNumberDot(ToFact(line))
  {
  }

  /** A line that holds only "N." and white space yields no fact. */
  lemma BareNumberDropped(line: string)
    requires HasNumberDot(line) && AllWhiteSpace(line[LeadingDigits(line) + 1..])
    ensures !Contributes(line)
  {
    ToFactOfNumberedLine(line);
    TrimEmptyIff(line[LeadingDigits(line) + 1..]);
  }

  /** The outcome of the call to the text model. */
  datatype ModelReply = Replied(text: string) | Threw

  /** `sliderNames[change.sliderId]` inside a template literal. */
  function SliderLabel(sliderId: string): string {
    if sliderId == "lifeExpectancy" then "Life Expectancy"
    else if sliderId == "airQuality" then "Air Quality"
    else if sliderId == "waterQuality" then "Water Quality"
    else if sliderId == "populationGrowth" then "Population Growth"
    else if sliderId == "gdp" then "GDP per capita"
    else if sliderId == "carbonEmissions" then "Carbon Emissions"
    else "undefined"
  }

  const SecondFallback := "The interconnected nature of these statistics means this adjustment will likely affect other variables as well."
  const ThirdFallback := "Consider the broader policy implications of this change for sustainable development."

  /** The first canned sentence, which names the slider and the country. */
  function FirstFallback(sliderId: string, countryName: string): (r: string)
    ensures |r| > 0
  {
    "This change to " + SliderLabel(sliderId) + " could have significant implications for "
      + countryName + "'s development trajectory."
  }

  /** The three canned sentences that stand in for facts. */
  function FallbackFacts(sliderId: string, countryName: string): (r: seq<string>)
    ensures |r| == 3
    ensures NoEmptyFact(r)
  {
    [FirstFallback(sliderId, countryName), SecondFallback, ThirdFallback]
  }

  /** `generateSliderFacts` with the model call as an input: the parsed facts
      when there are any, otherwise, and when the call throws, the fallback. */
  function GenerateSliderFacts(reply: ModelReply, sliderId: string, countryName: string): (r: seq<string>)
    ensures |r| > 0
    ensures NoEmptyFact(r)
    ensures reply.Threw? || ParseFacts(reply.text) == [] ==> r == FallbackFacts(sliderId, countryName)
    ensures reply.Replied? && ParseFacts(reply.text) != [] ==> r == ParseFacts(reply.text)
  {
    match reply
    case Threw => FallbackFacts(sliderId, countryName)
    case Replied(text) =>
      var facts := ParseFacts(text);
      if |facts| > 0 then facts else FallbackFacts(sliderId, countryName)
  }
}

/**
 The sandbox worker's bounded outputs: reading a stream up to a limit, compacting tool output, and
 running verification commands up to the first failure.  Splitting text into lines, stripping it and
 recognising an error line are library calls, given here as the Text parameter.
 */
module Execution {
  import opened Models

  type Byte = bv8

  // ---- bounded reading ----

  /** A stream delivers its chunks one by one; an empty chunk is its end. */
  class StreamReader {
    var chunks: seq<seq<Byte>>

    constructor (chunks: seq<seq<Byte>>)
      ensures this.chunks == chunks
    {
      this.chunks := chunks;
    }

    method Read() returns (chunk: seq<Byte>)
      modifies this
      ensures if |old(chunks)| == 0 then chunk == [] && chunks == []
              else chunk == old(chunks)[0] && chunks == old(chunks)[1..]
    {
      if |chunks| == 0 {
        return [];
      }
      chunk := chunks[0];
      chunks := chunks[1..];
    }
  }

  /** Everything the stream delivers before its end. */
  function Content(chunks: seq<seq<Byte>>): seq<Byte> {
    if |chunks| == 0 || |chunks[0]| == 0 then [] else chunks[0] + Content(chunks[1..])
  }

  function Prefix(data: seq<Byte>, limit: int): seq<Byte> {
    if limit <= 0 then [] else if |data| <= limit then data else data[..limit]
  }

  lemma PrefixIs(data: seq<Byte>, limit: int)
    ensures Prefix(data, limit) <= data
    ensures |Prefix(data, limit)| == (if limit <= 0 then 0 else if |data| <= limit then |data| else limit)
    ensures |data| > Max(0, limit) <==> limit < |data| && 0 < |data|
  {
  }

  /** However the stream is cut into chunks: the retained bytes are the first limit bytes of the content,
      and truncated says whether there were more. */
  method ReadBounded(stream: StreamReader?, limit: int) returns (retained: seq<Byte>, truncated: bool)
    modifies stream
    ensures stream == null ==> retained == [] && !truncated
    ensures stream != null ==>
              var content := Content(old(stream.chunks));
              && retained <= content
              && |retained| == (if limit <= 0 then 0 else if |content| <= limit then |content| else limit)
              && (truncated <==> limit < |content| && 0 < |content|)
  {
    retained, truncated := [], false;
    if stream == null {
      return;
    }
    hide Prefix, Content;
    ghost var seen: seq<Byte> := [];
    PrefixOfNothing(limit);
    while true
      invariant seen + Content(stream.chunks) == Content(old(stream.chunks))
      invariant retained == Prefix(seen, limit) && (truncated <==> |seen| > Max(0, limit))
      decreases |stream.chunks|
    {
      ghost var before := stream.chunks;
      var chunk := stream.Read();
      ContentStep(before, chunk, stream.chunks);
      if |chunk| == 0 {
        assert seen + [] == seen;
        break;
      }
      assert seen + (chunk + Content(stream.chunks)) == seen + chunk + Content(stream.chunks);
      PrefixMore(seen, chunk, limit);
      var remaining := limit - |retained|;
      if remaining > 0 {
        retained := retained + chunk[..if |chunk| < remaining then |chunk| else remaining];
      }
      if |chunk| > remaining {
        truncated := true;
      }
      seen := seen + chunk;
    }
    PrefixIs(seen, limit);
  }

  lemma PrefixOfNothing(limit: int)
    ensures Prefix([], limit) == []
  {
  }

  lemma ContentStep(before: seq<seq<Byte>>, chunk: seq<Byte>, after: seq<seq<Byte>>)
    requires if |before| == 0 then chunk == [] && after == [] else chunk == before[0] && after == before[1..]
    ensures Content(before) == if |chunk| == 0 then [] else chunk + Content(after)
  {
  }

  /** What one more chunk adds to what is retained, and whether something is cut off by then. */
  lemma PrefixMore(seen: seq<Byte>, chunk: seq<Byte>, limit: int)
    requires |chunk| != 0
    ensures var retained := Prefix(seen, limit);
            var remaining := limit - |retained|;
            && (remaining <= 0 ==> Prefix(seen + chunk, limit) == retained)
            && (0 < remaining ==>
                  Prefix(seen + chunk, limit) == retained + chunk[..if |chunk| < remaining then |chunk| else remaining])
            && (|seen + chunk| > Max(0, limit) <==> |seen| > Max(0, limit) || |chunk| > remaining)
  {
  }

  /** Two ways of cutting the same bytes into non-empty chunks are the same stream. */
  lemma {:induction false} ContentOfWhole(chunks: seq<seq<Byte>>)
    requires forall i :: 0 <= i < |chunks| ==> |chunks[i]| != 0
    ensures Content(chunks) == Flatten(chunks)
  {
    if |chunks| != 0 {
      ContentOfWhole(chunks[1..]);
    }
  }

  /** The first empty chunk ends the stream, whatever follows. */
  lemma {:induction false} ContentEnds(chunks: seq<seq<Byte>>, n: nat)
    requires n < |chunks| && |chunks[n]| == 0 && forall i :: 0 <= i < n ==> |chunks[i]| != 0
    ensures Content(chunks) == Flatten(chunks[..n])
  {
    if n != 0 {
      ContentEnds(chunks[1..], n - 1);
      assert chunks[..n][1..] == chunks[1..][..n - 1];
    }
  }

  function Flatten(chunks: seq<seq<Byte>>): seq<Byte> {
    if |chunks| == 0 then [] else chunks[0] + Flatten(chunks[1..])
  }

  // ---- execution results ----

  datatype ExecutionResult = ExecutionResult(exitCode: Option<int>, stdout: string, stderr: string, timedOut: bool)
  {
    predicate Succeeded() {
      !timedOut && exitCode == Some(0)
    }
  }

  /** The library calls of the summary. */
  datatype Text = Text(strip: string -> string, splitLines: string -> seq<string>, isError: string -> bool)

  function Join(parts: seq<string>, separator: string): string {
    if |parts| == 0 then ""
    else if |parts| == 1 then parts[0]
    else parts[0] + separator + Join(parts[1..], separator)
  }

  /** Joining is determined by these: pieces side by side, with one separator between them. */
  lemma {:induction false} JoinBoth(a: seq<string>, b: seq<string>, separator: string)
    requires |a| != 0 && |b| != 0
    ensures Join(a + b, separator) == Join(a, separator) + separator + Join(b, separator)
  {
    assert (a + b)[0] == a[0];
    if |a| == 1 {
      assert (a + b)[1..] == b;
    } else {
      JoinBoth(a[1..], b, separator);
      assert (a + b)[1..] == a[1..] + b;
      assert Join(a + b, separator)
          == a[0] + separator + (Join(a[1..], separator) + separator + Join(b, separator));
    }
  }

  /** A slice s[:n]; a negative n counts from the end. */
  function Cut(s: string, n: int): (r: string)
    ensures r <= s && |r| == (if n >= 0 then (if n <= |s| then n else |s|) else (if |s| + n >= 0 then |s| + n else 0))
  {
    if n >= |s| then s else if n >= 0 then s[..n] else if -n >= |s| then "" else s[..|s| + n]
  }

  function Digits(n: nat): string {
    var last := ["0", "1", "2", "3", "4", "5", "6", "7", "8", "9"][n % 10];
    if n < 10 then last else Digits(n / 10) + last
  }

  function Show(code: Option<int>): string {
    match code
    case None => "None"
    case Some(n) => if n < 0 then "-" + Digits(-n) else Digits(n)
  }

  /** Reading a decimal number. */
  function ValueOf(digits: string): int {
    if |digits| == 0 then 0 else 10 * ValueOf(digits[..|digits| - 1]) + (digits[|digits| - 1] as int - '0' as int)
  }

  /** An exit code is written in decimal, without leading zeros. */
  lemma {:induction false} DigitsReadBack(n: nat)
    ensures var d := Digits(n);
            && |d| != 0 && (forall c :: c in d ==> '0' <= c <= '9')
            && ValueOf(d) == n && (d[0] == '0' ==> n == 0)
  {
    var d := Digits(n);
    if n < 10 {
      assert d[..0] == [];
    } else {
      DigitsReadBack(n / 10);
      var last := ["0", "1", "2", "3", "4", "5", "6", "7", "8", "9"][n % 10];
      assert d == Digits(n / 10) + last && d[..|d| - 1] == Digits(n / 10);
    }
  }

  /** A missing exit code is written as None, a negative one with a minus sign. */
  lemma ShowReadBack(code: Option<int>)
    ensures match code
            case None => Show(code) == "None"
            case Some(n) =>
              if n < 0 then Show(code)[..1] == "-" && ValueOf(Show(code)[1..]) == -n else ValueOf(Show(code)) == n
  {
    hide Digits, ValueOf;
    if code.Some? {
      var n := code.value;
      DigitsReadBack(if n < 0 then -n else n);
      if n < 0 {
        assert ("-" + Digits(-n))[1..] == Digits(-n);
      }
    }
  }

  function Header(r: ExecutionResult): string {
    "exit_code=" + Show(r.exitCode) + "; timed_out=" + (if r.timedOut then "True" else "False")
  }

  function Combined(text: Text, r: ExecutionResult): string {
    text.strip(Join((if r.stdout == "" then [] else [r.stdout]) + (if r.stderr == "" then [] else [r.stderr]), "\n"))
  }

  /** Standard output, a line break, standard error; an empty one is left out with the line break. */
  lemma CombinedCases(text: Text, r: ExecutionResult)
    ensures Combined(text, r) == text.strip(if r.stdout == "" then r.stderr else if r.stderr == "" then r.stdout
                                            else r.stdout + "\n" + r.stderr)
  {
    var a, b := if r.stdout == "" then [] else [r.stdout], if r.stderr == "" then [] else [r.stderr];
    assert r.stdout == "" ==> a + b == b;
    assert r.stderr == "" ==> a + b == a;
    if r.stdout != "" && r.stderr != "" {
      JoinBoth(a, b, "\n");
    }
  }

  function Filter(lines: seq<string>, p: string -> bool): seq<string> {
    if |lines| == 0 then []
    else Filter(lines[..|lines| - 1], p) + (if p(lines[|lines| - 1]) then [lines[|lines| - 1]] else [])
  }

  /** The first 40 error lines, then the last 40 lines. */
  function Picked(text: Text, lines: seq<string>): seq<string> {
    var relevant := Filter(lines, text.isError);
    (if |relevant| <= 40 then relevant else relevant[..40]) + (if |lines| <= 40 then lines else lines[|lines| - 40..])
  }

  /** How many lines before line k satisfy p. */
  function CountBefore(lines: seq<string>, p: string -> bool, k: nat): nat
    requires k <= |lines|
  {
    if k == 0 then 0 else CountBefore(lines, p, k - 1) + if p(lines[k - 1]) then 1 else 0
  }

  lemma {:induction false} SameCount(lines: seq<string>, p: string -> bool, n: nat, k: nat)
    requires k <= n <= |lines|
    ensures CountBefore(lines[..n], p, k) == CountBefore(lines, p, k)
  {
    if k != 0 {
      SameCount(lines, p, n, k - 1);
    }
  }

  ghost predicate Increasing(places: seq<nat>) {
    forall i, j :: 0 <= i < j < |places| ==> places[i] < places[j]
  }

  /** Where the lines that satisfy p stand. */
  ghost predicate PlacesOf(places: seq<nat>, lines: seq<string>, p: string -> bool) {
    && Increasing(places)
    && (forall i :: 0 <= i < |places| ==> places[i] < |lines| && p(lines[places[i]]))
    && (forall k :: 0 <= k < |lines| && p(lines[k]) ==> k in places)
  }

  /** kept lists the lines at these places, the i-th of them with i lines that satisfy p before it. */
  ghost predicate Numbered(kept: seq<string>, places: seq<nat>, lines: seq<string>, p: string -> bool) {
    && |kept| == |places| == CountBefore(lines, p, |lines|)
    && forall i :: 0 <= i < |places| ==>
         places[i] < |lines| && kept[i] == lines[places[i]] && CountBefore(lines, p, places[i]) == i
  }

  lemma {:induction false} FilterPlaces(lines: seq<string>, p: string -> bool) returns (places: seq<nat>)
    ensures PlacesOf(places, lines, p) && Numbered(Filter(lines, p), places, lines, p)
  {
    hide PlacesOf, Numbered;
    if |lines| == 0 {
      places := [];
      NoPlaces(lines, p);
    } else {
      var n := |lines| - 1;
      var before := FilterPlaces(lines[..n], p);
      places := if p(lines[n]) then before + [n] else before;
      MorePlaces(before, lines, p);
      MoreNumbers(Filter(lines[..n], p), before, lines, p);
      assert Filter(lines[..n], p) + [] == Filter(lines[..n], p);
    }
  }

  lemma NoPlaces(lines: seq<string>, p: string -> bool)
    requires |lines| == 0
    ensures PlacesOf([], lines, p) && Numbered([], [], lines, p)
  {
  }

  lemma MoreNumbers(kept: seq<string>, before: seq<nat>, lines: seq<string>, p: string -> bool)
    requires |lines| != 0 && Numbered(kept, before, lines[..|lines| - 1], p)
    ensures var n := |lines| - 1;
            if p(lines[n]) then Numbered(kept + [lines[n]], before + [n], lines, p) else Numbered(kept, before, lines, p)
  {
    var n := |lines| - 1;
    SameCount(lines, p, n, n);
    forall i | 0 <= i < |before|
      ensures CountBefore(lines, p, before[i]) == i && lines[..n][before[i]] == lines[before[i]]
    {
      SameCount(lines, p, n, before[i]);
    }
  }

  lemma MorePlaces(before: seq<nat>, lines: seq<string>, p: string -> bool)
    requires |lines| != 0 && PlacesOf(before, lines[..|lines| - 1], p)
    ensures PlacesOf(if p(lines[|lines| - 1]) then before + [|lines| - 1] else before, lines, p)
  {
    var n := |lines| - 1;
    var places := if p(lines[n]) then before + [n] else before;
    forall i | 0 <= i < |places|
      ensures places[i] < |lines| && p(lines[places[i]])
    {
      assert i < |before| ==> lines[..n][before[i]] == lines[before[i]];
    }
    forall k | 0 <= k < |lines| && p(lines[k])
      ensures k in places
    {
      CoveredBefore(before, lines, p, k);
      assert p(lines[n]) ==> places[|before|] == n;
    }
  }

  lemma CoveredBefore(before: seq<nat>, lines: seq<string>, p: string -> bool, k: nat)
    requires |lines| != 0 && PlacesOf(before, lines[..|lines| - 1], p) && k < |lines| && p(lines[k])
    ensures k < |lines| - 1 ==> k in before
  {
    if k < |lines| - 1 {
      assert lines[..|lines| - 1][k] == lines[k];
    }
  }

  /** places are those of the first forty error lines: the error lines with fewer than forty before them. */
  ghost predicate FirstErrors(places: seq<nat>, lines: seq<string>, isError: string -> bool) {
    && Increasing(places)
    && (forall k :: k in places ==> k < |lines|)
    && (forall k :: 0 <= k < |lines| ==> (k in places <==> isError(lines[k]) && CountBefore(lines, isError, k) < 40))
  }

  /** picked is the lines at these places, followed by the last forty lines, or all if there are fewer: each of
      those stands as far from the end as among the lines. */
  ghost predicate ErrorsThenTail(picked: seq<string>, places: seq<nat>, lines: seq<string>) {
    && |picked| == |places| + (if |lines| < 40 then |lines| else 40)
    && (forall i :: 0 <= i < |places| ==> places[i] < |lines| && picked[i] == lines[places[i]])
    && (forall i :: |places| <= i < |picked| ==> picked[i] == lines[|lines| - |picked| + i])
  }

  /** Line k is among the last forty, or an error line with fewer than forty error lines before it. */
  ghost predicate Selected(lines: seq<string>, isError: string -> bool, k: nat) {
    k < |lines| && (|lines| - 40 <= k || (isError(lines[k]) && CountBefore(lines, isError, k) < 40))
  }

  lemma PickedLines(text: Text, lines: seq<string>) returns (places: seq<nat>)
    ensures FirstErrors(places, lines, text.isError)
    ensures ErrorsThenTail(Picked(text, lines), places, lines)
  {
    hide CountBefore, Filter, PlacesOf, FirstErrors;
    var all := FilterPlaces(lines, text.isError);
    places := if |all| <= 40 then all else all[..40];
    FirstForty(all, places, lines, text.isError);
  }

  lemma FirstForty(all: seq<nat>, places: seq<nat>, lines: seq<string>, p: string -> bool)
    requires PlacesOf(all, lines, p) && places == if |all| <= 40 then all else all[..40]
    requires forall i :: 0 <= i < |all| ==> CountBefore(lines, p, all[i]) == i
    ensures FirstErrors(places, lines, p)
  {
    hide CountBefore;
    forall k | 0 <= k < |lines|
      ensures k in places <==> p(lines[k]) && CountBefore(lines, p, k) < 40
    {
      if p(lines[k]) {
        var i :| 0 <= i < |all| && all[i] == k;
        assert i < 40 ==> places[i] == k;
      }
    }
  }

  /** selected lists the lines of picked without repeats, in the order of their first occurrence. */
  ghost predicate FirstOccurrences(selected: seq<string>, picked: seq<string>) {
    && (forall x :: x in selected <==> x in picked)
    && (forall i, j :: 0 <= i < j < |selected| ==> FirstIndex(picked, selected[i]) < FirstIndex(picked, selected[j]))
  }

  function FirstIndex(s: seq<string>, x: string): nat {
    if |s| == 0 || s[0] == x then 0 else 1 + FirstIndex(s[1..], x)
  }

  lemma {:induction false} FirstIndexAppend(s: seq<string>, y: string, x: string)
    ensures x in s ==> FirstIndex(s + [y], x) == FirstIndex(s, x) < |s|
    ensures x !in s ==> FirstIndex(s, x) == |s|
    ensures x !in s && x == y ==> FirstIndex(s + [y], x) == |s|
  {
    if |s| != 0 {
      assert (s + [y])[1..] == s[1..] + [y];
      FirstIndexAppend(s[1..], y, x);
    }
  }

  lemma AddLine(selected: seq<string>, picked: seq<string>, line: string)
    requires FirstOccurrences(selected, picked)
    ensures FirstOccurrences(if line in selected then selected else selected + [line], picked + [line])
  {
    forall x {
      FirstIndexAppend(picked, line, x);
    }
    var more := if line in selected then selected else selected + [line];
    assert forall i :: 0 <= i < |selected| ==> selected[i] in picked;
  }

  /** The listing is determined by what it lists. */
  lemma FirstOccurrencesUnique(a: seq<string>, b: seq<string>, picked: seq<string>)
    requires FirstOccurrences(a, picked) && FirstOccurrences(b, picked)
    ensures a == b
  {
    SameListing(a, b, picked);
  }

  lemma {:induction false} SameListing(a: seq<string>, b: seq<string>, picked: seq<string>)
    requires forall x :: x in a <==> x in b
    requires forall i, j :: 0 <= i < j < |a| ==> FirstIndex(picked, a[i]) < FirstIndex(picked, a[j])
    requires forall i, j :: 0 <= i < j < |b| ==> FirstIndex(picked, b[i]) < FirstIndex(picked, b[j])
    ensures a == b
  {
    assert |a| == 0 || a[|a| - 1] in a;
    assert |b| == 0 || b[|b| - 1] in b;
    if |a| != 0 {
      var m, n := |a| - 1, |b| - 1;
      assert a[m] == b[n];
      assert forall x :: x in a[..m] <==> x in a && x != a[m];
      assert forall x :: x in b[..n] <==> x in b && x != b[n];
      SameListing(a[..m], b[..n], picked);
    }
  }

  function Distinct(lines: seq<string>): seq<string> {
    if |lines| == 0 then []
    else
      var before, last := Distinct(lines[..|lines| - 1]), lines[|lines| - 1];
      if last in before then before else before + [last]
  }

  /** Dropping repeats gives exactly the listing by first occurrence. */
  lemma {:induction false} DistinctLists(lines: seq<string>)
    ensures FirstOccurrences(Distinct(lines), lines)
  {
    if |lines| != 0 {
      var front := lines[..|lines| - 1];
      DistinctLists(front);
      AddLine(Distinct(front), front, lines[|lines| - 1]);
      assert lines == front + [lines[|lines| - 1]];
    }
  }

  function Summary(text: Text, r: ExecutionResult, maxChars: int): string {
    var combined := Combined(text, r);
    if combined == "" then Header(r) + "; no output"
    else Cut(Header(r) + "\n" + Join(Distinct(Picked(text, text.splitLines(combined))), "\n"), maxChars)
  }

  /** The compacted output: an empty output says so; otherwise a header and each picked line once, all
      cut to max_chars. */
  method DiagnosticSummary(text: Text, r: ExecutionResult, maxChars: int) returns (summary: string)
    ensures summary == Summary(text, r, maxChars)
  {
    hide Picked, Join, Cut, Combined, Header;
    var combined := Combined(text, r);
    if combined == "" {
      return Header(r) + "; no output";
    }
    var picked := Picked(text, text.splitLines(combined));
    var selected: seq<string> := [];
    var seen: set<string> := {};
    for i := 0 to |picked|
      invariant selected == Distinct(picked[..i])
      invariant seen == set x | x in selected
    {
      var line := picked[i];
      assert picked[..i + 1][..i] == picked[..i];
      if line !in seen {
        selected := selected + [line];
        seen := seen + {line};
      }
    }
    assert picked[..|picked|] == picked;
    summary := Cut(Header(r) + "\n" + Join(selected, "\n"), maxChars);
  }

  /** What the summary says. No output is said in so many words. Otherwise the header is followed by each
      error line with fewer than forty error lines before it and each of the last forty lines, once, by first
      occurrence, one line each; and all is cut to max_chars. */
  lemma SummaryListing(text: Text, r: ExecutionResult, maxChars: int)
    returns (lines: seq<string>, places: seq<nat>, picked: seq<string>, listed: seq<string>)
    ensures var output := text.strip(if r.stdout == "" then r.stderr else if r.stderr == "" then r.stdout
                                     else r.stdout + "\n" + r.stderr);
            var header := "exit_code=" + Show(r.exitCode) + "; timed_out=" + (if r.timedOut then "True" else "False");
            && lines == text.splitLines(output)
            && FirstErrors(places, lines, text.isError) && ErrorsThenTail(picked, places, lines)
            && FirstOccurrences(listed, picked)
            && (forall x :: x in listed <==> exists k: nat :: k < |lines| && Selected(lines, text.isError, k) && lines[k] == x)
            && Summary(text, r, maxChars)
               == (if output == "" then header + "; no output" else Cut(header + "\n" + Join(listed, "\n"), maxChars))
  {
    hide Distinct, CountBefore, FirstIndex, Show, Picked;
    CombinedCases(text, r);
    lines := text.splitLines(Combined(text, r));
    picked := Picked(text, lines);
    places := PickedLines(text, lines);
    DistinctLists(picked);
    listed := Distinct(picked);
    ListedIff(text, lines, places, picked, listed);
  }

  lemma ListedIff(text: Text, lines: seq<string>, places: seq<nat>, picked: seq<string>, listed: seq<string>)
    requires FirstErrors(places, lines, text.isError) && ErrorsThenTail(picked, places, lines)
    requires forall x :: x in listed <==> x in picked
    ensures forall x :: x in listed <==> exists k: nat :: k < |lines| && Selected(lines, text.isError, k) && lines[k] == x
  {
    hide FirstErrors, ErrorsThenTail, Selected;
    forall k: nat | Selected(lines, text.isError, k)
      ensures k < |lines| && lines[k] in picked
    {
      SelectedIsPicked(text, lines, places, picked, k);
    }
    forall x | x in picked
      ensures exists k: nat :: k < |lines| && Selected(lines, text.isError, k) && lines[k] == x
    {
      var i :| 0 <= i < |picked| && picked[i] == x;
      var k := PickedIsSelected(text, lines, places, picked, i);
    }
  }

  lemma SelectedIsPicked(text: Text, lines: seq<string>, places: seq<nat>, picked: seq<string>, k: nat)
    requires FirstErrors(places, lines, text.isError) && ErrorsThenTail(picked, places, lines)
    requires Selected(lines, text.isError, k)
    ensures k < |lines| && lines[k] in picked
  {
    hide CountBefore;
    if |lines| - 40 <= k {
      var i := |picked| - |lines| + k;
      assert picked[i] == lines[|lines| - |picked| + i];
    } else {
      var i :| 0 <= i < |places| && places[i] == k;
      assert picked[i] == lines[k];
    }
  }

  lemma PickedIsSelected(text: Text, lines: seq<string>, places: seq<nat>, picked: seq<string>, i: nat) returns (k: nat)
    requires FirstErrors(places, lines, text.isError) && ErrorsThenTail(picked, places, lines) && i < |picked|
    ensures Selected(lines, text.isError, k) && k < |lines| && lines[k] == picked[i]
  {
    hide CountBefore;
    if i < |places| {
      k := places[i];
      assert k in places;
    } else {
      k := |lines| - |picked| + i;
    }
  }

  // ---- verification ----

  datatype VerificationReport = VerificationReport(results: seq<ExecutionResult>)
  {
    predicate Succeeded() {
      |results| != 0 && forall i :: 0 <= i < |results| ==> results[i].Succeeded()
    }
  }

  /** Runs the commands in order, up to and including the first failure; execute(i, request) is what
      comes of the i-th run. */
  method Verify<Request>(requests: seq<Request>, execute: (nat, Request) -> ExecutionResult)
    returns (report: VerificationReport)
    ensures |report.results| <= |requests|
    ensures forall i :: 0 <= i < |report.results| ==> report.results[i] == execute(i, requests[i])
    ensures forall i :: 0 <= i < |report.results| - 1 ==>
              report.results[i].exitCode == Some(0) && !report.results[i].timedOut
    ensures |report.results| < |requests| ==>
              |report.results| != 0 && (report.results[|report.results| - 1].exitCode != Some(0)
                                        || report.results[|report.results| - 1].timedOut)
    ensures report.Succeeded()
            <==> |requests| != 0
                 && forall i :: 0 <= i < |requests| ==>
                      execute(i, requests[i]).exitCode == Some(0) && !execute(i, requests[i]).timedOut
  {
    var results: seq<ExecutionResult> := [];
    for i := 0 to |requests|
      invariant |results| == i
      invariant forall j :: 0 <= j < i ==> results[j] == execute(j, requests[j]) && results[j].Succeeded()
    {
      var result := execute(i, requests[i]);
      results := results + [result];
      if !result.Succeeded() {
        return VerificationReport(results);
      }
    }
    report := VerificationReport(results);
  }

  function FailedResults(results: seq<ExecutionResult>): seq<ExecutionResult> {
    if |results| == 0 then []
    else
      FailedResults(results[..|results| - 1])
      + (if results[|results| - 1].Succeeded() then [] else [results[|results| - 1]])
  }

  const SUMMARY_CHARS := 8000

  function Summaries(text: Text, results: seq<ExecutionResult>): seq<string> {
    seq(|results|, i requires 0 <= i < |results| => Summary(text, results[i], SUMMARY_CHARS))
  }

  function Uncut(text: Text, results: seq<ExecutionResult>): string {
    Join(Summaries(text, FailedResults(results)), "\n\n")
  }

  function DiagnosticsForAi(text: Text, report: VerificationReport, maxChars: int): string {
    Cut(Uncut(text, report.results), maxChars)
  }

  /** Of a report of Verify, only the last run can have failed, so the diagnostics are a bounded prefix of
      the last run's summary, and empty when all succeeded. */
  lemma DiagnosticsAreOfTheLastRun(text: Text, report: VerificationReport, maxChars: int)
    requires forall i :: 0 <= i < |report.results| - 1 ==> report.results[i].Succeeded()
    ensures var d := DiagnosticsForAi(text, report, maxChars);
            && (0 <= maxChars ==> |d| <= maxChars)
            && (if |report.results| == 0 || report.Succeeded() then d == ""
                else d == Cut(Summary(text, report.results[|report.results| - 1], 8000), maxChars))
  {
    var results := report.results;
    if |results| != 0 {
      NoneFailed(results[..|results| - 1]);
      var failed := FailedResults(results);
      if results[|results| - 1].Succeeded() {
        assert report.Succeeded();
        assert failed == [];
      } else {
        assert failed == [results[|results| - 1]];
        assert Summaries(text, failed) == [Summary(text, results[|results| - 1], SUMMARY_CHARS)];
      }
    }
  }

  lemma {:induction false} NoneFailed(results: seq<ExecutionResult>)
    requires forall i :: 0 <= i < |results| ==> results[i].Succeeded()
    ensures FailedResults(results) == []
  {
    if |results| != 0 {
      NoneFailed(results[..|results| - 1]);
    }
  }

  /** The diagnostics of any report: one more passing run adds nothing, one more failing run its summary, after
      an empty line if there is another. */
  lemma DiagnosticsOfOneMore(text: Text, results: seq<ExecutionResult>, r: ExecutionResult, maxChars: int)
    ensures Uncut(text, []) == ""
    ensures Uncut(text, results + [r]) ==
            if r.exitCode == Some(0) && !r.timedOut then Uncut(text, results)
            else if forall i :: 0 <= i < |results| ==> results[i].exitCode == Some(0) && !results[i].timedOut
            then Summary(text, r, 8000)
            else Uncut(text, results) + "\n\n" + Summary(text, r, 8000)
    ensures DiagnosticsForAi(text, VerificationReport(results), maxChars) == Cut(Uncut(text, results), maxChars)
  {
    hide Join, Summary, FailedResults, Summaries;
    var failed := FailedResults(results);
    NothingUncut(text);
    FailedAppend(results, r);
    FailedIff(results);
    SummariesAppend(text, failed, r);
    if !r.Succeeded() && |failed| != 0 {
      JoinBoth(Summaries(text, failed), [Summary(text, r, 8000)], "\n\n");
    }
    JoinOne(Summary(text, r, 8000), "\n\n");
    assert |failed| == 0 ==> Summaries(text, failed) + [Summary(text, r, 8000)] == [Summary(text, r, 8000)];
  }

  lemma NothingUncut(text: Text)
    ensures Uncut(text, []) == ""
  {
  }

  lemma FailedAppend(results: seq<ExecutionResult>, r: ExecutionResult)
    ensures FailedResults(results + [r]) == if r.Succeeded() then FailedResults(results) else FailedResults(results) + [r]
  {
    assert (results + [r])[..|results|] == results;
  }

  lemma SummariesAppend(text: Text, failed: seq<ExecutionResult>, r: ExecutionResult)
    ensures |Summaries(text, failed)| == |failed|
    ensures Summaries(text, failed + [r]) == Summaries(text, failed) + [Summary(text, r, 8000)]
  {
    hide Summary;
  }

  lemma JoinOne(part: string, separator: string)
    ensures Join([part], separator) == part
  {
  }

  lemma {:induction false} FailedIff(results: seq<ExecutionResult>)
    ensures |FailedResults(results)| == 0 <==> forall i :: 0 <= i < |results| ==> results[i].Succeeded()
  {
    if |results| != 0 {
      FailedIff(results[..|results| - 1]);
    }
  }
}

/** The CSS vocabulary the grid emits: single track-size tokens for
    `grid-template-columns`, and the space-separated list that holds them.
    `ParseTrack` and `Words` read the emitted text back, so properties of
    the grid style are stated about what these readers get from the text,
    not about how the string was assembled. `ParseTrack` accepts negative
    `px` and `fr` sizes, which CSS itself rejects. */
module Css {
  import opened Wrappers
  import opened Decimal

  /** The track sizes the grid uses: `<n>px`, `<n>fr`,
      `fit-content(<n>%)` and `fit-content(<n>px)`. */
  datatype TrackSize =
    | Px(pixels: int)
    | Fr(weight: int)
    | FitContentPercent(percent: nat)
    | FitContentPx(limit: nat)

  const FitContentOpen: string := "fit-content("

  /** A token that survives a space-separated list: non-empty, no space. */
  predicate IsWord(s: string) {
    s != [] && forall i :: 0 <= i < |s| ==> s[i] != ' '
  }

  predicate HasPrefix(s: string, prefix: string) {
    |prefix| <= |s| && s[..|prefix|] == prefix
  }

  predicate HasSuffix(s: string, suffix: string) {
    |suffix| <= |s| && s[|s| - |suffix|..] == suffix
  }

  function RenderTrack(t: TrackSize): (s: string)
    ensures IsWord(s)
  {
    match t
    case Px(n) => IntToString(n) + "px"
    case Fr(n) => IntToString(n) + "fr"
    case FitContentPercent(p) => FitContentOpen + NatToString(p) + "%)"
    case FitContentPx(p) => FitContentOpen + NatToString(p) + "px)"
  }

  /** Reads one track-size token; `None` for anything else. */
  function ParseTrack(s: string): Option<TrackSize> {
    if HasPrefix(s, FitContentOpen) && HasSuffix(s, ")") && |FitContentOpen| < |s| then
      var inner := s[|FitContentOpen|..|s| - 1];
      if HasSuffix(inner, "%") then
        match ParseNat(inner[..|inner| - 1])
        case Some(p) => Some(FitContentPercent(p))
        case None => None
      else if HasSuffix(inner, "px") then
        match ParseNat(inner[..|inner| - 2])
        case Some(p) => Some(FitContentPx(p))
        case None => None
      else
        None
    else if HasSuffix(s, "px") then
      match ParseInt(s[..|s| - 2])
      case Some(n) => Some(Px(n))
      case None => None
    else if HasSuffix(s, "fr") then
      match ParseInt(s[..|s| - 2])
      case Some(n) => Some(Fr(n))
      case None => None
    else
      None
  }

  /** A rendered integer followed by a unit is not a `fit-content(...)` token. */
  lemma NumberIsNotFitContent(n: int, unit: string)
    ensures !HasPrefix(IntToString(n) + unit, FitContentOpen)
  {
    var s := IntToString(n) + unit;
    assert |FitContentOpen| <= |s| ==> s[..|FitContentOpen|][0] == s[0] != FitContentOpen[0];
  }

  lemma RenderTrackRoundTrip(t: TrackSize)
    ensures ParseTrack(RenderTrack(t)) == Some(t)
  {
    var s := RenderTrack(t);
    match t
    case Px(n) =>
      NumberIsNotFitContent(n, "px");
      assert s[..|s| - 2] == IntToString(n);
      IntToStringParses(n);
    case Fr(n) =>
      NumberIsNotFitContent(n, "fr");
      assert s[|s| - 2..] == "fr";
      assert s[..|s| - 2] == IntToString(n);
      IntToStringParses(n);
    case FitContentPercent(p) =>
      var digits := NatToString(p);
      assert s[..|FitContentOpen|] == FitContentOpen;
      var inner := s[|FitContentOpen|..|s| - 1];
      assert inner == digits + "%";
      assert inner[..|inner| - 1] == digits;
      NatToStringParses(p);
    case FitContentPx(p) =>
      var digits := NatToString(p);
      assert s[..|FitContentOpen|] == FitContentOpen;
      var inner := s[|FitContentOpen|..|s| - 1];
      assert inner == digits + "px";
      assert inner[|inner| - 1] == 'x';
      assert inner[..|inner| - 2] == digits;
      NatToStringParses(p);
  }

  /** `Array.prototype.join(" ")`. */
  function Join(words: seq<string>): (s: string)
    ensures words != [] ==> HasPrefix(s, words[0])
  {
    if words == [] then ""
    else if |words| == 1 then words[0]
    else words[0] + " " + Join(words[1..])
  }

  /** `String.prototype.split(" ")`: always at least one piece. */
  function SplitSpaces(s: string): (pieces: seq<string>)
    ensures |pieces| >= 1
  {
    if s == [] then [""]
    else
      var rest := SplitSpaces(s[1..]);
      if s[0] == ' ' then [""] + rest else [[s[0]] + rest[0]] + rest[1..]
  }

  /** The tokens of a space-separated list; the empty list has none. */
  function Words(s: string): seq<string> {
    if s == "" then [] else SplitSpaces(s)
  }

  lemma {:induction false} SplitWordThenRest(w: string, rest: string, more: bool)
    requires forall i :: 0 <= i < |w| ==> w[i] != ' '
    ensures more ==> SplitSpaces(w + " " + rest) == [w] + SplitSpaces(rest)
    ensures !more ==> SplitSpaces(w) == [w]
  {
    if w != [] {
      SplitWordThenRest(w[1..], rest, more);
      if more {
        assert (w + " " + rest)[1..] == w[1..] + " " + rest;
      }
      assert [w[0]] + w[1..] == w;
    }
  }

  /** Joining words with single spaces and splitting the result gives the
      words back. */
  lemma {:induction false} WordsOfJoin(words: seq<string>)
    requires forall k :: 0 <= k < |words| ==> IsWord(words[k])
    ensures Words(Join(words)) == words
  {
    if |words| == 1 {
      SplitWordThenRest(words[0], "", false);
    } else if |words| > 1 {
      var rest := Join(words[1..]);
      SplitWordThenRest(words[0], rest, true);
      WordsOfJoin(words[1..]);
      assert rest != "";
    }
  }
}

/**
 * The flashcard and quiz editor: lists of cards and of four-option quiz
 * items edited in place, a file upload limited to CSV and TXT files, and a
 * voice transcription parsed in the "Front: X, Back: Y" format.
 */
module CreateFlashcardsQuizzes {
  import opened Opt
  import opened Text
  import opened Seqs

  datatype FlashcardItem = FlashcardItem(front: string, back: string)
  datatype QuizItem = QuizItem(question: string, options: seq<string>, correctAnswer: int)
  datatype Side = Front | Back

  /** The card `addFlashcard` appends and the list starts with. */
  const BlankCard := FlashcardItem("", "")
  /** The item `addQuizItem` appends and the list starts with: four empty options, the first one right. */
  const BlankQuizItem := QuizItem("", ["", "", "", ""], 0)

  const ParseError := "Could not parse the voice input. Please use the format 'Front: [question], Back: [answer]'"
  const UploadError := "Please upload a CSV or TXT file"
  const SampleFront := "What is the capital of France?"
  const SampleBack := "Paris"
  /**
   * The text the simulated recognizer delivers when recording stops:
   * "Front: What is the capital of France? Back: Paris", written in its two parts.
   */
  const SampleTranscription := "Front: " + SampleFront + " Back: " + SampleBack

  /** The card with one side replaced. */
  function WithSide(card: FlashcardItem, side: Side, value: string): (r: FlashcardItem)
    ensures side == Front ==> r.front == value && r.back == card.back
    ensures side == Back ==> r.back == value && r.front == card.front
  {
    match side
    case Front => card.(front := value)
    case Back => card.(back := value)
  }

  // ---------------------------------------------------------------------
  // The file extension check of `handleFileUpload`
  // ---------------------------------------------------------------------

  /** Only ".csv" and ".txt" files are accepted, whatever the case of the extension. */
  predicate AcceptedUpload(name: string)
  {
    Extension(name) == "csv" || Extension(name) == "txt"
  }

  /** A name is accepted exactly when the text after its last dot is "csv" or "txt" in any case. */
  lemma AcceptedExtensions(stem: string, ext: string)
    requires '.' !in ext
    ensures AcceptedUpload(stem + "." + ext) <==> Lower(ext) == "csv" || Lower(ext) == "txt"
  {
    ExtensionOf(stem, ext);
  }

  /** A name without a dot is its own extension, so only names "csv" and "txt" pass. */
  lemma NoDotNoExtension(name: string)
    requires '.' !in name
    ensures Extension(name) == Lower(name)
  {
    LastSegmentAll(name, '.');
  }

  // ---------------------------------------------------------------------
  // The voice-input parser of `processTranscribedText`
  // ---------------------------------------------------------------------

  /** `t` is the lower-case word `w` up to the case of its ASCII letters. */
  predicate WordIs(t: string, w: string)
  {
    |t| == |w| && forall i :: 0 <= i < |w| ==> LowerChar(t[i]) == w[i]
  }

  /** A case-insensitive occurrence of the lower-case word `w` at `p`. */
  predicate WordAt(s: string, w: string, p: int)
  {
    0 <= p && p + |w| <= |s| && WordIs(s[p..p + |w|], w)
  }

  lemma KeywordSpellings()
    ensures WordIs("Front:", "front:") && WordIs("Back:", "back:")
  {
  }

  /** The end of the run of `\s` characters that starts at `i`. */
  function SkipSpaces(s: string, i: nat): (j: nat)
    requires i <= |s|
    ensures i <= j <= |s|
    ensures forall k :: i <= k < j ==> IsSpace(s[k])
    ensures j == |s| || !IsSpace(s[j])
    decreases |s| - i
  {
    if i < |s| && IsSpace(s[i]) then SkipSpaces(s, i + 1) else i
  }

  lemma {:induction false} SkipSpacesIs(s: string, i: nat, j: nat)
    requires i <= j <= |s|
    requires forall k :: i <= k < j ==> IsSpace(s[k])
    requires j == |s| || !IsSpace(s[j])
    ensures SkipSpaces(s, i) == j
    decreases j - i
  {
    if i < j {
      SkipSpacesIs(s, i + 1, j);
    }
  }

  /** `,?\s*Back:` matches at `b` (the optional comma, the spaces, then the word). */
  predicate BackFollows(s: string, b: nat)
    requires b <= |s|
  {
    var c := if b < |s| && s[b] == ',' then b + 1 else b;
    WordAt(s, "back:", SkipSpaces(s, c))
  }

  /** The largest `b` with `lo < b <= hi` that satisfies `p`, found from `hi` down. */
  function LastSatisfying(lo: nat, hi: nat, p: nat -> bool): (r: Option<nat>)
    ensures r.Some? ==> lo < r.value <= hi && p(r.value)
    ensures r.Some? ==> forall j :: r.value < j <= hi ==> !p(j)
    ensures r.None? ==> forall j :: lo < j <= hi ==> !p(j)
    decreases hi
  {
    if hi <= lo then None
    else if p(hi) then Some(hi)
    else LastSatisfying(lo, hi - 1, p)
  }

  /** The largest `b` with `lo < b <= hi` where `BackFollows` holds: where the greedy group gives back to. */
  function LastBackFollows(s: string, lo: nat, hi: nat): (r: Option<nat>)
    requires hi <= |s|
    ensures r.Some? ==> lo < r.value <= hi && BackFollows(s, r.value)
    ensures r.Some? ==> forall j :: r.value < j <= hi ==> !BackFollows(s, j)
    ensures r.None? ==> forall j :: lo < j <= hi ==> !BackFollows(s, j)
  {
    var follows := (b: nat) => b <= |s| && BackFollows(s, b);
    assert forall j :: lo < j <= hi ==> (follows(j) <==> BackFollows(s, j));
    LastSatisfying(lo, hi, follows)
  }

  /**
   * The group of `/Front:\s*([^,]+),?\s*Back:/i` for a match starting at
   * `p`, in the regular expression's backtracking order: the spaces are
   * skipped, the group takes the longest comma-free stretch after which
   * `,?\s*Back:` matches; failing that, the spaces give back one character
   * to the group when "Back:" follows them directly.
   */
  function FrontCaptureAt(s: string, p: nat): Option<string>
    requires WordAt(s, "front:", p)
  {
    var a := SkipSpaces(s, p + 6);
    FrontGroup(s, p + 6, a, a + IndexOf(s[a..], ','))
  }

  /** The front group found at a "Front:" is non-empty and holds no comma. */
  lemma FrontCaptureShape(s: string, p: nat)
    requires WordAt(s, "front:", p)
    ensures FrontCaptureAt(s, p).Some? ==> |FrontCaptureAt(s, p).value| > 0 && ',' !in FrontCaptureAt(s, p).value
  {
  }

  /**
   * The group once the spaces from `start` end at `a` and the first comma
   * after them is at `e` (or `e` is the end of the text).
   */
  function FrontGroup(s: string, start: nat, a: nat, e: nat): (r: Option<string>)
    requires start <= a <= |s| && e == a + IndexOf(s[a..], ',')
    requires forall k :: start <= k < a ==> IsSpace(s[k])
    ensures r.Some? ==> |r.value| > 0 && ',' !in r.value
  {
    match LastBackFollows(s, a, e)
    case Some(b) =>
      NoCommaBefore(s, a, b);
      Some(s[a..b])
    case None =>
      if a > start && BackFollows(s, a) then
        SpaceIsNoComma(s[a - 1]);
        assert s[a - 1..a] == [s[a - 1]];
        Some(s[a - 1..a])
      else None
  }

  lemma SpaceIsNoComma(c: char)
    requires IsSpace(c)
    ensures c != ','
  {
  }

  /** No comma lies between `a` and any `b` up to the first comma from `a`. */
  lemma NoCommaBefore(s: string, a: nat, b: nat)
    requires a <= |s| && a <= b <= a + IndexOf(s[a..], ',')
    ensures ',' !in s[a..b]
  {
    assert s[a..b] == s[a..][..IndexOf(s[a..], ',')][..b - a];
  }

  /** `transcribedText.match(/Front:…/i)[1]`: the group of the leftmost match at or after `p`. */
  function FrontFrom(s: string, p: nat): (r: Option<string>)
    ensures r.Some? ==> |r.value| > 0 && ',' !in r.value
    decreases |s| - p
  {
    if p + 6 > |s| then None
    else
      var here := if WordAt(s, "front:", p) then FrontCaptureShape(s, p); FrontCaptureAt(s, p) else None;
      if here.Some? then here else FrontFrom(s, p + 1)
  }

  predicate NoLineTerminator(s: string)
  {
    forall i :: 0 <= i < |s| ==> !IsLineTerminator(s[i])
  }

  /**
   * The group of `/Back:\s*(.+)$/i` for a match starting at `p`: without
   * the `m` flag `$` is the end of the text, so the group is the rest after
   * the spaces when it has no line terminator; when the spaces reach the end,
   * the last of them, unless it ends a line.
   */
  function BackCaptureAt(s: string, p: nat): (r: Option<string>)
    requires WordAt(s, "back:", p)
    ensures r.Some? ==> |r.value| > 0 && NoLineTerminator(r.value)
  {
    var a := SkipSpaces(s, p + 5);
    if a < |s| then
      if NoLineTerminator(s[a..]) then Some(s[a..]) else None
    else if a > p + 5 && !IsLineTerminator(s[a - 1]) then Some(s[a - 1..a])
    else None
  }

  /** `transcribedText.match(/Back:…/i)[1]`: the group of the leftmost match at or after `p`. */
  function BackFrom(s: string, p: nat): (r: Option<string>)
    ensures r.Some? ==> |r.value| > 0 && NoLineTerminator(r.value)
    decreases |s| - p
  {
    if p + 5 > |s| then None
    else
      var here := if WordAt(s, "back:", p) then BackCaptureAt(s, p) else None;
      if here.Some? then here else BackFrom(s, p + 1)
  }

  /** The card a transcription yields: both patterns must match; both groups are trimmed. */
  function ParseTranscription(s: string): (r: Option<FlashcardItem>)
    ensures r.Some? <==> FrontFrom(s, 0).Some? && BackFrom(s, 0).Some?
    ensures r.Some? ==> r.value == FlashcardItem(Trim(FrontFrom(s, 0).value), Trim(BackFrom(s, 0).value))
  {
    var front := FrontFrom(s, 0);
    var back := BackFrom(s, 0);
    if front.Some? && back.Some? then Some(FlashcardItem(Trim(front.value), Trim(back.value))) else None
  }

  /** Leading spaces do not change the trimmed text. */
  lemma {:induction false} TrimStartSkips(x: string, k: nat)
    requires k <= |x| && (forall i :: 0 <= i < k ==> IsSpace(x[i])) && (k == |x| || !IsSpace(x[k]))
    ensures TrimStart(x) == x[k..]
  {
    if k > 0 {
      TrimStartSkips(x[1..], k - 1);
      assert x[1..][k - 1..] == x[k..];
    }
  }

  lemma TrimAfterSpaces(x: string, k: nat)
    requires k <= |x| && (forall i :: 0 <= i < k ==> IsSpace(x[i])) && (k == |x| || !IsSpace(x[k]))
    ensures Trim(x[k..]) == Trim(x)
  {
    TrimStartSkips(x, k);
    TrimStartSkips(x[k..], 0);
  }

  /** The index of the first non-space character of a text that is not all space. */
  lemma FirstNonSpace(x: string) returns (k: nat)
    requires Trim(x) != ""
    ensures k < |x| && (forall i :: 0 <= i < k ==> IsSpace(x[i])) && !IsSpace(x[k])
  {
    var t := TrimStart(x);
    TrimStartIs(x);
    TrimEmptyIffAllSpace(x);
    k := |x| - |t|;
    assert t != [];
    assert x[..k][0..k] == x[..k];
    assert t[0] == x[k];
  }

  /** A "back:" has its colon four characters after its start. */
  lemma BackHasColon(s: string, p: nat)
    ensures WordAt(s, "back:", p) ==> s[p + 4] == ':'
  {
    assert "back:"[4] == ':';
    if p + 5 <= |s| {
      assert s[p..p + 5][4] == s[p + 4];
    }
  }

  /** No "back:" starts in `[lo, hi)` when the text has no colon in `[lo + 4, hi + 4)`. */
  lemma NoColonNoBack(s: string, lo: nat, hi: nat)
    requires lo <= hi && hi + 4 <= |s| && ':' !in s[lo + 4..hi + 4]
    ensures forall i :: lo <= i < hi ==> !WordAt(s, "back:", i)
  {
    forall i | lo <= i < hi
      ensures !WordAt(s, "back:", i)
    {
      BackHasColon(s, i);
      assert s[i + 4] == s[lo + 4..hi + 4][i - lo];
    }
  }

  /** Positions before the leftmost "back:" do not change which match is found. */
  lemma {:induction false} BackFromSkip(s: string, p: nat, q: nat)
    requires p <= q && forall i :: p <= i < q ==> !WordAt(s, "back:", i)
    ensures BackFrom(s, p) == BackFrom(s, q)
    decreases q - p
  {
    if p < q {
      BackFromSkip(s, p + 1, q);
    }
  }

  lemma FirstCommaAt(s: string, a: nat, e: nat)
    requires a < e < |s| && ',' !in s[a..e] && s[e] == ','
    ensures IndexOf(s[a..], ',') == e - a
  {
    var t := s[a..];
    assert t[e - a] == ',';
    assert t[..e - a] == s[a..e];
    IndexOfIs(t, ',', e - a);
  }

  /**
   * When the text starts with "front:", the spaces after it end at `a`, the
   * first comma after them is at `e > a` and "Back:" follows that comma
   * (after spaces), the front group is the stretch from `a` to the comma.
   */
  lemma FrontGroupAtComma(s: string, a: nat, e: nat)
    requires WordAt(s, "front:", 0) && SkipSpaces(s, 6) == a
    requires a < e < |s| && ',' !in s[a..e] && s[e] == ',' && BackFollows(s, e)
    ensures FrontFrom(s, 0) == Some(s[a..e])
  {
    FirstCommaAt(s, a, e);
    assert LastBackFollows(s, a, e) == Some(e);
    GroupBefore(s, 6, a, e, e);
    CaptureIsGroup(s, 0, a, e, s[a..e]);
    FrontFromFirst(s, s[a..e]);
  }

  /** The group of a match at `p` is the group once its spaces and its first comma are found. */
  lemma CaptureIsGroup(s: string, p: nat, a: nat, e: nat, c: string)
    requires WordAt(s, "front:", p) && SkipSpaces(s, p + 6) == a && a <= e <= |s| && IndexOf(s[a..], ',') == e - a
    requires FrontGroup(s, p + 6, a, e) == Some(c)
    ensures FrontCaptureAt(s, p) == Some(c)
  {
  }

  /** The group is the stretch from `a` to where the greedy group gives back to. */
  lemma GroupBefore(s: string, start: nat, a: nat, e: nat, b: nat)
    requires start <= a < b <= e <= |s| && e == a + IndexOf(s[a..], ',')
    requires forall k :: start <= k < a ==> IsSpace(s[k])
    requires LastBackFollows(s, a, e) == Some(b)
    ensures FrontGroup(s, start, a, e) == Some(s[a..b])
  {
  }

  lemma FrontFromFirst(s: string, c: string)
    requires WordAt(s, "front:", 0) && FrontCaptureAt(s, 0) == Some(c)
    ensures FrontFrom(s, 0) == Some(c)
  {
  }

  /** ", Back:" at `e` is where `,?\s*Back:` matches. */
  lemma CommaThenBack(s: string, e: nat)
    requires e + 7 <= |s| && s[e..e + 7] == ", Back:"
    ensures BackFollows(s, e) && s[e] == ','
  {
    assert s[e] == s[e..e + 7][0] && s[e + 1] == s[e..e + 7][1] && s[e + 2] == s[e..e + 7][2];
    assert s[e + 2..e + 7] == s[e..e + 7][2..];
    SkipSpacesIs(s, e + 1, e + 2);
    KeywordSpellings();
  }

  /** A text starting with "Front: " has the keyword at 0 followed by a space. */
  lemma FrontKeyword(s: string)
    requires |s| >= 7 && s[..7] == "Front: "
    ensures WordAt(s, "front:", 0) && s[6] == ' '
  {
    assert s[0..6] == s[..7][..6];
    KeywordSpellings();
  }

  /** The spaces after "Front:" run to the first non-space character of x. */
  lemma SpacesBeforeX(s: string, x: string, k: nat)
    requires |s| >= 7 + |x| && s[6] == ' ' && s[7..7 + |x|] == x
    requires k < |x| && (forall i :: 0 <= i < k ==> IsSpace(x[i])) && !IsSpace(x[k])
    ensures SkipSpaces(s, 6) == 7 + k && s[7 + k..7 + |x|] == x[k..]
  {
    assert forall i :: 7 <= i < 7 + |x| ==> s[i] == x[i - 7];
    SkipSpacesIs(s, 6, 7 + k);
  }

  /** Where the pieces of "Front: x, Back: y" sit. */
  lemma FormattedLayout(x: string, y: string)
    ensures var s := "Front: " + x + ", Back: " + y;
      var n := |x|;
      |s| == 15 + n + |y| && s[..7] == "Front: " && s[1] == 'r' && s[7 + n..14 + n] == ", Back:"
      && s[9 + n..14 + n] == "Back:" && s[14 + n] == ' '
      && s[6..13 + n] == " " + x + ", Back" && s[7..7 + n] == x && s[15 + n..] == y
  {
    var s := "Front: " + x + ", Back: " + y;
    var n := |x|;
    assert s == "Front: " + (x + (", Back: " + y));
    assert s[7 + n..] == ", Back: " + y;
  }

  /** The front group of a text laid out as "Front: x, Back: y" is x without its leading spaces. */
  lemma FormattedFront(s: string, x: string)
    requires ',' !in x && Trim(x) != ""
    requires var n := |x|;
      |s| >= 14 + n && s[..7] == "Front: " && s[7..7 + n] == x && s[7 + n..14 + n] == ", Back:"
    ensures FrontFrom(s, 0).Some? && Trim(FrontFrom(s, 0).value) == Trim(x)
  {
    var n := |x|;
    var e := 7 + n;
    CommaThenBack(s, e);
    FrontKeyword(s);
    var k := FirstNonSpace(x);
    SpacesBeforeX(s, x, k);
    var a := 7 + k;
    assert WordAt(s, "front:", 0);
    assert SkipSpaces(s, 6) == a;
    assert a < e < |s|;
    assert s[e] == ',';
    assert BackFollows(s, e);
    assert s[a..e] == x[k..];
    assert ',' !in s[a..e];
    FrontGroupAtComma(s, a, e);
    TrimAfterSpaces(x, k);
  }

  /** No "back:" starts before `q` in a text that begins "Front: " and has no colon in `[6, q + 4)`. */
  lemma NoBackBefore(s: string, q: nat)
    requires 3 <= q && q + 4 <= |s| && s[..7] == "Front: " && ':' !in s[6..q + 4]
    ensures forall i :: 0 <= i < q ==> !WordAt(s, "back:", i)
  {
    NoColonNoBack(s, 2, q);
    assert s[1] == s[..7][1] && s[4] == s[..7][4];
    BackHasColon(s, 0);
    assert s[1..6][0] == 'r';
  }

  /** With the leftmost "back:" at `q`, the back group is the one found there. */
  lemma BackFromFirst(s: string, q: nat, c: string)
    requires forall i :: 0 <= i < q ==> !WordAt(s, "back:", i)
    requires WordAt(s, "back:", q) && BackCaptureAt(s, q) == Some(c)
    ensures BackFrom(s, 0) == Some(c)
  {
    BackFromSkip(s, 0, q);
  }

  /** After "Back: " the group is y from its first non-space character on. */
  lemma BackGroupOfY(s: string, q: nat, y: string, k: nat)
    requires q + 6 <= |s| && s[q..q + 5] == "Back:" && s[q + 5] == ' ' && s[q + 6..] == y
    requires NoLineTerminator(y) && k < |y| && (forall i :: 0 <= i < k ==> IsSpace(y[i])) && !IsSpace(y[k])
    ensures WordAt(s, "back:", q) && BackCaptureAt(s, q) == Some(y[k..])
  {
    KeywordSpellings();
    assert forall i :: q + 6 <= i < |s| ==> s[i] == y[i - q - 6];
    SkipSpacesIs(s, q + 5, q + 6 + k);
    assert s[q + 6 + k..] == y[k..];
  }

  /** The back group of a text laid out as "Front: x, Back: y" is y without its leading spaces. */
  lemma FormattedBack(s: string, x: string, y: string)
    requires ':' !in x && NoLineTerminator(y) && Trim(y) != ""
    requires var n := |x|;
      |s| == 15 + n + |y| && s[..7] == "Front: " && s[6..13 + n] == " " + x + ", Back"
      && s[9 + n..14 + n] == "Back:" && s[14 + n] == ' ' && s[15 + n..] == y
    ensures BackFrom(s, 0).Some? && Trim(BackFrom(s, 0).value) == Trim(y)
  {
    var n := |x|;
    var q := 9 + n;
    assert ':' !in s[6..q + 4];
    NoBackBefore(s, q);
    var k := FirstNonSpace(y);
    BackGroupOfY(s, q, y, k);
    BackFromFirst(s, q, y[k..]);
    TrimAfterSpaces(y, k);
  }

  /**
   * A transcription in the advertised format "Front: x, Back: y" yields the
   * card (trimmed x, trimmed y) when x holds no comma and no colon, y is on
   * one line, and neither is blank.
   */
  lemma ParseFormatted(x: string, y: string)
    requires ',' !in x && ':' !in x && Trim(x) != ""
    requires NoLineTerminator(y) && Trim(y) != ""
    ensures ParseTranscription("Front: " + x + ", Back: " + y) == Some(FlashcardItem(Trim(x), Trim(y)))
  {
    var s := "Front: " + x + ", Back: " + y;
    FormattedLayout(x, y);
    FormattedFront(s, x);
    FormattedBack(s, x, y);
  }

  /** No "back:" starts at or after `from` when the text has no colon from `from + 4` on. */
  lemma NoBackAfter(s: string, from: nat)
    requires from + 4 <= |s| && ':' !in s[from + 4..]
    ensures forall q :: from <= q ==> !WordAt(s, "back:", q)
  {
    forall q | from <= q
      ensures !WordAt(s, "back:", q)
    {
      BackHasColon(s, q);
      if q + 5 <= |s| {
        assert s[q + 4] == s[from + 4..][q - from];
      }
    }
  }

  /** A leading non-space character and one trailing space do not change the trimmed text. */
  lemma TrimTrailingSpace(x: string, k: nat)
    requires k < |x| && (forall i :: 0 <= i < k ==> IsSpace(x[i])) && !IsSpace(x[k])
    ensures Trim(x[k..] + " ") == Trim(x)
  {
    var t := x[k..];
    assert (t + " ")[0] == x[k];
    assert TrimStart(t + " ") == t + " ";
    assert (t + " ")[..|t|] == t;
    assert TrimEnd(t + " ") == TrimEnd(t);
    TrimStartSkips(x, k);
  }

  /** Where the pieces of "Front: x Back: y" sit. */
  lemma SpacedLayout(x: string, y: string)
    ensures var s := "Front: " + x + " Back: " + y;
      var n := |x|;
      |s| == 14 + n + |y| && s[..7] == "Front: " && s[7..7 + n] == x && s[7 + n] == ' '
      && s[6..12 + n] == " " + x + " Back" && s[8 + n..13 + n] == "Back:" && s[13 + n] == ' '
      && s[14 + n..] == y && s[13 + n..] == " " + y
  {
    var s := "Front: " + x + " Back: " + y;
    var n := |x|;
    assert s == "Front: " + (x + (" Back: " + y));
    assert s[7 + n..] == " Back: " + y;
  }

  /** "Back:" right after the front text is where `,?\s*Back:` matches, and nothing later is. */
  lemma SpacedBackFollows(s: string, b: nat)
    requires b + 6 <= |s| && s[b..b + 5] == "Back:" && s[b + 5] == ' ' && ':' !in s[b + 5..]
    ensures BackFollows(s, b)
    ensures forall j :: b < j <= |s| ==> !BackFollows(s, j)
  {
    KeywordSpellings();
    assert s[b] == s[b..b + 5][0];
    SkipSpacesIs(s, b, b);
    NoBackAfter(s, b + 1);
  }

  /** The front group of "Front: x Back: y" is x from its first non-space character, with the space before "Back:". */
  lemma SpacedFront(s: string, x: string, y: string)
    requires ',' !in x && Trim(x) != "" && ':' !in y
    requires var n := |x|;
      |s| == 14 + n + |y| && s[..7] == "Front: " && s[7..7 + n] == x && s[7 + n] == ' '
      && s[8 + n..13 + n] == "Back:" && s[13 + n] == ' ' && s[13 + n..] == " " + y
    ensures FrontFrom(s, 0).Some? && Trim(FrontFrom(s, 0).value) == Trim(x)
  {
    var n := |x|;
    var b := 8 + n;
    FrontKeyword(s);
    var k := FirstNonSpace(x);
    SpacesBeforeX(s, x, k);
    var a := 7 + k;
    assert s[a..b] == x[k..] + " ";
    assert ',' !in s[a..b];
    var e := a + IndexOf(s[a..], ',');
    CommaNotBefore(s, a, b);
    assert ':' !in s[b + 5..];
    SpacedBackFollows(s, b);
    LastBackAt(s, a, e, b);
    GroupBefore(s, 6, a, e, b);
    CaptureIsGroup(s, 0, a, e, s[a..b]);
    FrontFromFirst(s, s[a..b]);
    TrimTrailingSpace(x, k);
  }

  /** The first comma from `a` is not before `b` when `[a, b)` has none. */
  lemma CommaNotBefore(s: string, a: nat, b: nat)
    requires a <= b <= |s| && ',' !in s[a..b]
    ensures a + IndexOf(s[a..], ',') >= b
  {
  }

  /** The greedy group ends at `b` when `,?\s*Back:` matches there and at no later position. */
  lemma LastBackAt(s: string, a: nat, e: nat, b: nat)
    requires a < b <= e <= |s| && BackFollows(s, b)
    requires forall j :: b < j <= |s| ==> !BackFollows(s, j)
    ensures LastBackFollows(s, a, e) == Some(b)
  {
  }

  /** The back group of "Front: x Back: y" is y from its first non-space character. */
  lemma SpacedBack(s: string, x: string, y: string)
    requires ':' !in x && NoLineTerminator(y) && Trim(y) != ""
    requires var n := |x|;
      |s| == 14 + n + |y| && s[..7] == "Front: " && s[6..12 + n] == " " + x + " Back"
      && s[8 + n..13 + n] == "Back:" && s[13 + n] == ' ' && s[14 + n..] == y
    ensures BackFrom(s, 0).Some? && Trim(BackFrom(s, 0).value) == Trim(y)
  {
    var n := |x|;
    var q := 8 + n;
    assert ':' !in s[6..q + 4];
    NoBackBefore(s, q);
    var k := FirstNonSpace(y);
    BackGroupOfY(s, q, y, k);
    BackFromFirst(s, q, y[k..]);
    TrimAfterSpaces(y, k);
  }

  /**
   * Without the comma, "Front: x Back: y" yields the same card as the
   * advertised format: the group takes the space before "Back:", which
   * trimming removes. This needs x free of commas and colons and y free of
   * colons (a later "back:" would move the group's end).
   */
  lemma ParseSpaced(x: string, y: string)
    requires ',' !in x && ':' !in x && Trim(x) != ""
    requires ':' !in y && NoLineTerminator(y) && Trim(y) != ""
    ensures ParseTranscription("Front: " + x + " Back: " + y) == Some(FlashcardItem(Trim(x), Trim(y)))
  {
    var s := "Front: " + x + " Back: " + y;
    SpacedLayout(x, y);
    SpacedFront(s, x, y);
    SpacedBack(s, x, y);
  }

  /** The sample's question meets the conditions of `ParseSpaced` and is already trimmed. */
  lemma SampleFrontParts()
    ensures ',' !in SampleFront && ':' !in SampleFront && Trim(SampleFront) == SampleFront != ""
  {
    SampleFrontNoComma();
    SampleFrontNoColon();
  }

  lemma SampleFrontNoComma()
    ensures ',' !in SampleFront
  {
  }

  lemma SampleFrontNoColon()
    ensures ':' !in SampleFront
  {
  }

  /** The sample's answer meets the conditions of `ParseSpaced` and is already trimmed. */
  lemma SampleBackParts()
    ensures ':' !in SampleBack && NoLineTerminator(SampleBack) && Trim(SampleBack) == SampleBack != ""
  {
  }

  /** The recognizer's sample text yields the card "What is the capital of France?" / "Paris". */
  lemma SampleTranscriptionCard()
    ensures ParseTranscription(SampleTranscription) == Some(FlashcardItem(SampleFront, SampleBack))
  {
    SampleFrontParts();
    SampleBackParts();
    ParseSpaced(SampleFront, SampleBack);
  }

  /** A transcription without the word "front" is rejected. */
  lemma {:induction false} NoFrontNoCard(s: string, p: nat)
    requires forall i :: p <= i ==> !WordAt(s, "front:", i)
    ensures FrontFrom(s, p).None?
    decreases |s| - p
  {
    if p + 6 <= |s| {
      NoFrontNoCard(s, p + 1);
    }
  }

  // ---------------------------------------------------------------------
  // The editor's state
  // ---------------------------------------------------------------------

  /** The editor's eight state variables, as one value. */
  datatype EditorState = EditorState(
    flashcards: seq<FlashcardItem>, quizItems: seq<QuizItem>, isRecording: bool,
    transcribedText: string, uploadedFile: Option<string>, isProcessing: bool,
    progress: int, error: Option<string>)

  /** The opening state: one blank card, one blank quiz item, nothing recorded, uploaded or processing. */
  const InitialEditor := EditorState([BlankCard], [BlankQuizItem], false, "", None, false, 0, None)

  class Editor {
    var flashcards: seq<FlashcardItem>
    var quizItems: seq<QuizItem>
    var isRecording: bool
    var transcribedText: string
    var uploadedFile: Option<string>
    var isProcessing: bool
    var progress: int
    var error: Option<string>

    /** Both lists keep at least one entry and every quiz item has four options. */
    predicate Valid()
      reads this
    {
      |flashcards| >= 1 && |quizItems| >= 1
      && (forall i :: 0 <= i < |quizItems| ==> |quizItems[i].options| == 4)
      && 0 <= progress <= 100
    }

    function State(): EditorState
      reads this
    {
      EditorState(flashcards, quizItems, isRecording, transcribedText, uploadedFile, isProcessing, progress, error)
    }

    constructor()
      ensures Valid() && State() == InitialEditor
    {
      flashcards := [BlankCard];
      quizItems := [BlankQuizItem];
      isRecording := false;
      transcribedText := "";
      uploadedFile := None;
      isProcessing := false;
      progress := 0;
      error := None;
    }

    /** `addFlashcard`. */
    method AddFlashcard()
      requires Valid()
      modifies this
      ensures Valid() && State() == old(State()).(flashcards := old(flashcards) + [BlankCard])
    {
      flashcards := flashcards + [BlankCard];
    }

    /** `updateFlashcard(index, field, value)`: one side of one card. */
    method UpdateFlashcard(index: nat, side: Side, value: string)
      requires Valid() && index < |flashcards|
      modifies this
      ensures Valid()
      ensures State() == old(State()).(flashcards := old(flashcards)[index := WithSide(old(flashcards)[index], side, value)])
    {
      flashcards := flashcards[index := WithSide(flashcards[index], side, value)];
    }

    /** `removeFlashcard(index)`: the last remaining card cannot be removed. */
    method RemoveFlashcard(index: nat)
      requires Valid() && index < |flashcards|
      modifies this
      ensures Valid()
      ensures State() == old(State()).(flashcards := if |old(flashcards)| > 1 then RemoveAt(old(flashcards), index)
                                                     else old(flashcards))
    {
      if |flashcards| > 1 {
        flashcards := RemoveAt(flashcards, index);
      }
    }

    /** `addQuizItem`. */
    method AddQuizItem()
      requires Valid()
      modifies this
      ensures Valid() && State() == old(State()).(quizItems := old(quizItems) + [BlankQuizItem])
    {
      quizItems := quizItems + [BlankQuizItem];
    }

    /** `updateQuizItem(index, "question", value)`. */
    method UpdateQuestion(index: nat, value: string)
      requires Valid() && index < |quizItems|
      modifies this
      ensures Valid()
      ensures State() == old(State()).(quizItems := old(quizItems)[index := old(quizItems)[index].(question := value)])
    {
      quizItems := quizItems[index := quizItems[index].(question := value)];
    }

    /** `updateQuizItem(index, "correctAnswer", optionIndex)`: the radio button of an option. */
    method UpdateCorrectAnswer(index: nat, optionIndex: nat)
      requires Valid() && index < |quizItems| && optionIndex < |quizItems[index].options|
      modifies this
      ensures Valid()
      ensures State() == old(State()).(quizItems := old(quizItems)[index := old(quizItems)[index].(correctAnswer := optionIndex)])
      ensures 0 <= quizItems[index].correctAnswer < |quizItems[index].options|
    {
      quizItems := quizItems[index := quizItems[index].(correctAnswer := optionIndex)];
    }

    /** `updateQuizOption(itemIndex, optionIndex, value)`: exactly one option of one item. */
    method UpdateQuizOption(itemIndex: nat, optionIndex: nat, value: string)
      requires Valid() && itemIndex < |quizItems| && optionIndex < |quizItems[itemIndex].options|
      modifies this
      ensures Valid()
      ensures State() == old(State()).(quizItems := old(quizItems)[itemIndex :=
        old(quizItems)[itemIndex].(options := old(quizItems)[itemIndex].options[optionIndex := value])])
    {
      var item := quizItems[itemIndex];
      quizItems := quizItems[itemIndex := item.(options := item.options[optionIndex := value])];
    }

    /** `removeQuizItem(index)`: the last remaining item cannot be removed. */
    method RemoveQuizItem(index: nat)
      requires Valid() && index < |quizItems|
      modifies this
      ensures Valid()
      ensures State() == old(State()).(quizItems := if |old(quizItems)| > 1 then RemoveAt(old(quizItems), index)
                                                   else old(quizItems))
    {
      if |quizItems| > 1 {
        quizItems := RemoveAt(quizItems, index);
      }
    }

    /**
     * `toggleRecording`: starting clears the transcription; stopping delivers
     * the recognizer's text (after its delay, which is not modelled).
     */
    method ToggleRecording()
      requires Valid()
      modifies this
      ensures Valid()
      ensures State() == old(State()).(isRecording := !old(isRecording),
                                       transcribedText := if old(isRecording) then SampleTranscription else "")
    {
      if isRecording {
        isRecording := false;
        transcribedText := SampleTranscription;
      } else {
        isRecording := true;
        transcribedText := "";
      }
    }

    /** The "Clear" button under the transcription. */
    method ClearTranscription()
      requires Valid()
      modifies this
      ensures Valid() && State() == old(State()).(transcribedText := "")
    {
      transcribedText := "";
    }

    /**
     * `processTranscribedText`: nothing for an empty transcription; a parsed
     * card is appended and the transcription cleared; otherwise the format
     * error is shown and the transcription kept.
     */
    method ProcessTranscribedText()
      requires Valid()
      modifies this
      ensures Valid()
      ensures old(transcribedText) == "" ==> State() == old(State())
      ensures old(transcribedText) != "" && ParseTranscription(old(transcribedText)).Some? ==>
        State() == old(State()).(flashcards := old(flashcards) + [ParseTranscription(old(transcribedText)).value],
                                 transcribedText := "")
      ensures old(transcribedText) != "" && ParseTranscription(old(transcribedText)).None? ==>
        State() == old(State()).(error := Some(ParseError))
    {
      if transcribedText == "" {
        return;
      }
      var card := ParseTranscription(transcribedText);
      if card.Some? {
        flashcards := flashcards + [card.value];
        transcribedText := "";
      } else {
        error := Some(ParseError);
      }
    }

    /**
     * `handleFileUpload` with the chosen files' names: the error is cleared;
     * the first file is taken when its extension is csv or txt (any case)
     * and processing runs to 100%; otherwise the upload error is shown.
     */
    method HandleFileUpload(files: seq<string>)
      requires Valid()
      modifies this
      ensures Valid()
      ensures files == [] ==> State() == old(State()).(error := None)
      ensures files != [] && !AcceptedUpload(files[0]) ==> State() == old(State()).(error := Some(UploadError))
      ensures files != [] && AcceptedUpload(files[0]) ==>
        State() == old(State()).(error := None, uploadedFile := Some(files[0]), isProcessing := false, progress := 100)
    {
      error := None;
      if |files| > 0 {
        var file := files[0];
        if !AcceptedUpload(file) {
          error := Some(UploadError);
          return;
        }
        uploadedFile := Some(file);
        SimulateProcessing();
      }
    }

    /** The "remove file" button. */
    method RemoveUploadedFile()
      requires Valid()
      modifies this
      ensures Valid() && State() == old(State()).(uploadedFile := None)
    {
      uploadedFile := None;
    }

    /**
     * The processing timer, one iteration per tick: from 0 in steps of 10
     * until a tick finds 100, which ends processing.
     */
    method SimulateProcessing()
      requires Valid()
      modifies this
      ensures Valid() && State() == old(State()).(isProcessing := false, progress := 100)
    {
      isProcessing := true;
      progress := 0;
      while isProcessing
        invariant Valid() && progress % 10 == 0
        invariant !isProcessing ==> progress == 100
        invariant State().(isProcessing := false, progress := 100) == old(State()).(isProcessing := false, progress := 100)
        decreases 110 - progress, isProcessing
      {
        if progress >= 100 {
          isProcessing := false;
          progress := 100;
        } else {
          progress := progress + 10;
        }
      }
    }

    /** `saveContent`: the same timer, after which the page returns to "/". */
    method SaveContent() returns (route: string)
      requires Valid()
      modifies this
      ensures Valid() && route == "/" && State() == old(State()).(isProcessing := false, progress := 100)
    {
      SimulateProcessing();
      route := "/";
    }
  }
}

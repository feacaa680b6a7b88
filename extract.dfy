/**
 * `extract_field`: find `<name>:` in the page content and return the value
 * after it, up to the next blank-line separated label or the end of the text,
 * stripped of surrounding whitespace.
 *
 * The source does this with one `re.search` in DOTALL mode. Here the search
 * is an explicit left-to-right scan (FindStart, SkipLeading, FindBoundary), and
 * IsLeftmostMatch states declaratively which match that search reports:
 *   - the leftmost start where `<name>:` occurs with at least one character
 *     after it (the lazy group must capture one character);
 *   - `\s*` greedy, giving one character back when the whitespace runs to the
 *     end of the text;
 *   - the lazy capture ends at the first position after its start where the
 *     lookahead holds: a blank line followed by `id:`, `question:` or
 *     `answer:`, or `$`, which without MULTILINE matches at the end of the
 *     text and just before a final line feed.
 */
module Extract {
  import opened Wrappers
  import opened PyStr

  /** `w` occurs in `s` at position `i`, character by character. */
  predicate OccursAt(s: string, w: string, i: int) {
    0 <= i && i + |w| <= |s| && forall j :: 0 <= j < |w| ==> s[i + j] == w[j]
  }

  /** A blank line followed by one of the three known labels starts at `k`. */
  predicate MarkerAt(s: string, k: int) {
    OccursAt(s, "\n\nid:", k) || OccursAt(s, "\n\nquestion:", k) || OccursAt(s, "\n\nanswer:", k)
  }

  /** The lookahead `(?=\n\n(?:id:|question:|answer:)|$)` holds at `t`. */
  predicate IsBoundary(s: string, t: int) {
    t == |s| || (0 <= t && t + 1 == |s| && s[t] == '\n') || MarkerAt(s, t)
  }

  /** A match may start at `p`: `<name>:` is there and at least one character follows. */
  predicate CanStartAt(s: string, name: string, p: int) {
    OccursAt(s, name + ":", p) && p + |name| + 1 < |s|
  }

  /** No blank-line separated label anywhere in `v`. */
  ghost predicate LabelFree(v: string) {
    forall k :: !MarkerAt(v, k)
  }

  /** `s[q..t]` is what the lazy group captures from `q`: it starts on a
      non-blank (or on the last character of the text) and runs up to the first
      position after `q` where the lookahead holds. */
  ghost predicate CaptureSpan(s: string, q: int, t: int) {
    && 0 <= q < t <= |s|
    && (!IsSpace(s[q]) || q + 1 == |s|)
    && IsBoundary(s, t)
    && (forall k :: q < k < t ==> !IsBoundary(s, k))
  }

  /** The match `re.search` reports: label at `p`, captured group `s[q..t]`. */
  ghost predicate IsLeftmostMatch(s: string, name: string, p: int, q: int, t: int) {
    && CanStartAt(s, name, p)
    && (forall k :: 0 <= k < p ==> !CanStartAt(s, name, k))
    && p + |name| + 1 <= q
    && CaptureSpan(s, q, t)
    && (forall k :: p + |name| + 1 <= k < q ==> IsSpace(s[k]))
  }

  /** The first position at or after `from` where a match can start. */
  function FindStart(s: string, name: string, from: nat): (r: Option<nat>)
    ensures r.Some? ==> from <= r.value && CanStartAt(s, name, r.value)
    ensures r.Some? ==> forall k :: from <= k < r.value ==> !CanStartAt(s, name, k)
    ensures r.None? ==> forall k :: from <= k ==> !CanStartAt(s, name, k)
    decreases |s| - from
  {
    if from >= |s| then None
    else if CanStartAt(s, name, from) then Some(from)
    else FindStart(s, name, from + 1)
  }

  /** Lazy `.+?`: the first position at or after `from` where the lookahead holds. */
  function FindBoundary(s: string, from: nat): (t: nat)
    requires from <= |s|
    ensures from <= t <= |s| && IsBoundary(s, t)
    ensures forall k :: from <= k < t ==> !IsBoundary(s, k)
    decreases |s| - from
  {
    if IsBoundary(s, from) then from else FindBoundary(s, from + 1)
  }

  /** The scan: label position, start and end of the captured group. */
  function Locate(s: string, name: string): (r: Option<(nat, nat, nat)>)
    ensures r.Some? ==> IsLeftmostMatch(s, name, r.value.0, r.value.1, r.value.2)
    ensures r.None? <==> forall k :: !CanStartAt(s, name, k)
  {
    match FindStart(s, name, 0)
    case None => None
    case Some(p) =>
      var e := SkipLeading(s, p + |name| + 1);  // greedy `\s*`
      var q := if e < |s| then e else |s| - 1;
      Some((p, q, FindBoundary(s, q + 1)))
  }

  /** The leftmost match is unique: the pattern determines at most one. */
  lemma LeftmostMatchUnique(s: string, name: string, p: int, q: int, t: int, p': int, q': int, t': int)
    requires IsLeftmostMatch(s, name, p, q, t)
    requires IsLeftmostMatch(s, name, p', q', t')
    ensures p == p' && q == q' && t == t'
  {
  }

  /** What occurs in a piece `v` of `s` occurs in `s`, shifted by where `v` sits. */
  lemma OccursInPiece(s: string, a: int, v: string, w: string, k: int)
    requires OccursAt(s, v, a) && OccursAt(v, w, k)
    ensures OccursAt(s, w, a + k)
  {
    forall j | 0 <= j < |w| ensures s[a + k + j] == w[j] {
      assert v[k + j] == w[j];
    }
  }

  /** A blank-line separated label begins with a line feed. */
  lemma MarkerStartsWithLineFeed(s: string, k: int)
    requires MarkerAt(s, k)
    ensures k + 5 <= |s| && s[k] == '\n'
  {
    if OccursAt(s, "\n\nid:", k) {
      assert s[k + 0] == "\n\nid:"[0];
    } else if OccursAt(s, "\n\nquestion:", k) {
      assert s[k + 0] == "\n\nquestion:"[0];
    } else {
      assert s[k + 0] == "\n\nanswer:"[0];
    }
  }

  /** No blank-line separated label starts inside the capture `s[q..t]`: the
      lazy capture stops at the first one after its start, and its first
      character is a line feed only when it is the last character of the text. */
  lemma NoMarkerInCapture(s: string, q: int, t: int, m: int)
    requires CaptureSpan(s, q, t)
    requires q <= m < t
    ensures !MarkerAt(s, m)
  {
    if m == q {
      if MarkerAt(s, m) { MarkerStartsWithLineFeed(s, m); }
    } else {
      assert !IsBoundary(s, m);
    }
  }

  /** The same, read inside a piece `v` of the capture. */
  lemma CaptureHasNoMarker(s: string, q: int, t: int, a: int, v: string)
    requires CaptureSpan(s, q, t)
    requires q <= a && a + |v| <= t && OccursAt(s, v, a)
    ensures LabelFree(v)
  {
    forall k ensures !MarkerAt(v, k) {
      if MarkerAt(v, k) {
        var w :| w in {"\n\nid:", "\n\nquestion:", "\n\nanswer:"} && OccursAt(v, w, k);
        OccursInPiece(s, a, v, w, k);
        NoMarkerInCapture(s, q, t, a + k);
      }
    }
  }

  /** A piece framed inside `s[q..t]` occurs in `s` itself, shifted by `q`. */
  lemma FramedInSegment(s: string, q: int, t: int, i: int, v: string)
    requires 0 <= q <= t <= |s| && SpaceFramed(s[q..t], i, v)
    ensures q + i + |v| <= t && OccursAt(s, v, q + i)
  {
    forall j | 0 <= j < |v| ensures s[q + i + j] == v[j] {
      assert v[j] == s[q..t][i + j];
    }
  }

  /** The stripped text of `s[q..t]` sits inside `s[q..t]`. */
  lemma StrippedPiece(s: string, q: int, t: int)
    requires 0 <= q <= t <= |s|
    ensures q + StripOffset(s[q..t]) + |Strip(s[q..t])| <= t
    ensures OccursAt(s, Strip(s[q..t]), q + StripOffset(s[q..t]))
  {
    StripAt(s[q..t]);
    FramedInSegment(s, q, t, StripOffset(s[q..t]), Strip(s[q..t]));
  }

  /** The stripped capture is trimmed and label-free. */
  lemma StrippedCaptureIsClean(s: string, q: int, t: int)
    requires CaptureSpan(s, q, t)
    ensures Trimmed(Strip(s[q..t])) && LabelFree(Strip(s[q..t]))
  {
    StrippedPiece(s, q, t);
    CaptureHasNoMarker(s, q, t, q + StripOffset(s[q..t]), Strip(s[q..t]));
  }

  /** `extract_field(content, name)`: `None` exactly when no start position
      exists; otherwise a trimmed value with no blank-line separated label in it. */
  function ExtractField(content: string, name: string): (r: Option<string>)
    ensures r.None? <==> forall k :: !CanStartAt(content, name, k)
    ensures r.Some? ==> Trimmed(r.value) && LabelFree(r.value)
  {
    match Locate(content, name)
    case None => None
    case Some((p, q, t)) =>
      StrippedCaptureIsClean(content, q, t);
      Some(Strip(content[q..t]))
  }

  /** The value reported is the stripped capture of the leftmost match, for any
      description of that match: the scan agrees with the declarative pattern. */
  lemma ExtractFieldIsLeftmostMatch(content: string, name: string, p: int, q: int, t: int)
    requires IsLeftmostMatch(content, name, p, q, t)
    ensures ExtractField(content, name) == Some(Strip(content[q..t]))
  {
    assert CanStartAt(content, name, p);
    var r := Locate(content, name);
    LeftmostMatchUnique(content, name, p, q, t, r.value.0, r.value.1, r.value.2);
  }
}

/** Worked examples of `extract_field`, each proved through the declarative match. */
module ExtractExamples {
  import opened Wrappers
  import opened PyStr
  import opened Extract

  /** A slice of a literal, checked character by character. */
  lemma SliceIs(s: string, i: int, w: string)
    requires 0 <= i && i + |w| <= |s|
    requires forall j :: 0 <= j < |w| ==> s[i + j] == w[j]
    ensures s[i..i + |w|] == w
  {
  }

  /** Inside the text, the lookahead only holds on a line feed. */
  lemma BoundaryIsLineFeed(s: string, k: int)
    requires IsBoundary(s, k) && k < |s|
    ensures s[k] == '\n'
  {
    if MarkerAt(s, k) { MarkerStartsWithLineFeed(s, k); }
  }

  /** A match start spells out `<name>:` from there. */
  lemma StartSpellsLabel(s: string, name: string, k: int, j: int)
    requires CanStartAt(s, name, k) && 0 <= j <= |name|
    ensures s[k + j] == (name + ":")[j]
  {
  }

  const ScenarioPage := "id: 1\n\nquestion: What is 2+2?\n\nanswer: 4"

  /** The two blank-line separated labels of the page. */
  lemma ScenarioMarkers(s: string)
    requires s == ScenarioPage
    ensures MarkerAt(s, 5) && MarkerAt(s, 29)
  {
    assert OccursAt(s, "\n\nquestion:", 5);
    assert OccursAt(s, "\n\nanswer:", 29);
  }

  lemma ScenarioIdMatch(s: string)
    requires s == ScenarioPage
    ensures IsLeftmostMatch(s, "id", 0, 4, 5)
  {
    assert CanStartAt(s, "id", 0);
    ScenarioMarkers(s);
    assert IsSpace(s[3]) && !IsSpace(s[4]);
  }

  /** Inside the question no lookahead holds before the blank line. */
  lemma ScenarioQuestionRun(s: string)
    requires s == ScenarioPage
    ensures forall k :: 17 < k < 29 ==> !IsBoundary(s, k)
  {
    forall k | 17 < k < 29 ensures !IsBoundary(s, k) {
      if IsBoundary(s, k) { BoundaryIsLineFeed(s, k); }
    }
  }

  /** `question:` starts at 7 and nowhere before. */
  lemma ScenarioQuestionStart(s: string)
    requires s == ScenarioPage
    ensures CanStartAt(s, "question", 7)
    ensures forall k :: 0 <= k < 7 ==> !CanStartAt(s, "question", k)
  {
    assert CanStartAt(s, "question", 7);
    forall k | 0 <= k < 7 ensures !CanStartAt(s, "question", k) {
      if CanStartAt(s, "question", k) { StartSpellsLabel(s, "question", k, 0); }
    }
  }

  lemma ScenarioQuestionMatch(s: string)
    requires s == ScenarioPage
    ensures IsLeftmostMatch(s, "question", 7, 17, 29)
  {
    ScenarioQuestionStart(s);
    ScenarioMarkers(s);
    ScenarioQuestionRun(s);
    assert IsSpace(s[16]) && !IsSpace(s[17]);
  }

  lemma ScenarioAnswerMatch(s: string)
    requires s == ScenarioPage
    ensures IsLeftmostMatch(s, "answer", 31, 39, 40)
  {
    assert CanStartAt(s, "answer", 31);
    forall k | 0 <= k < 31 ensures !CanStartAt(s, "answer", k) {
      if CanStartAt(s, "answer", k) {
        StartSpellsLabel(s, "answer", k, 0);
        StartSpellsLabel(s, "answer", k, 1);
      }
    }
  }

  /** The page `id: 1`, `question: What is 2+2?`, `answer: 4` (separated by
      blank lines) yields each of its three fields. */
  lemma ExtractScenarioId(s: string)
    requires s == ScenarioPage
    ensures ExtractField(s, "id") == Some("1")
  {
    SliceIs(s, 4, "1");
    StripTrimmed("1");
    ScenarioIdMatch(s);
    ExtractFieldIsLeftmostMatch(s, "id", 0, 4, 5);
  }

  lemma ExtractScenarioQuestion(s: string)
    requires s == ScenarioPage
    ensures ExtractField(s, "question") == Some("What is 2+2?")
  {
    SliceIs(s, 17, "What is 2+2?");
    StripTrimmed("What is 2+2?");
    ScenarioQuestionMatch(s);
    ExtractFieldIsLeftmostMatch(s, "question", 7, 17, 29);
  }

  lemma ExtractScenarioAnswer(s: string)
    requires s == ScenarioPage
    ensures ExtractField(s, "answer") == Some("4")
  {
    SliceIs(s, 39, "4");
    StripTrimmed("4");
    ScenarioAnswerMatch(s);
    ExtractFieldIsLeftmostMatch(s, "answer", 31, 39, 40);
  }

  const EmptyQuestionPage := "question:\n\nanswer: 4"

  lemma EmptyQuestionMatch(s: string)
    requires s == EmptyQuestionPage
    ensures IsLeftmostMatch(s, "question", 0, 11, 20)
  {
    assert CanStartAt(s, "question", 0);
    forall k | 11 < k < 20 ensures !IsBoundary(s, k) {
      if IsBoundary(s, k) { BoundaryIsLineFeed(s, k); }
    }
  }

  /** The whitespace skip is greedy and runs across the blank line, so an
      empty question swallows the following answer line. */
  lemma GreedySkipCrossesBlankLine(s: string)
    requires s == EmptyQuestionPage
    ensures ExtractField(s, "question") == Some("answer: 4")
  {
    SliceIs(s, 11, "answer: 4");
    StripTrimmed("answer: 4");
    EmptyQuestionMatch(s);
    ExtractFieldIsLeftmostMatch(s, "question", 0, 11, 20);
  }

  /** The label is matched anywhere, not only at a line start: `id:` inside `paid:`. */
  lemma LabelInsideWord(s: string)
    requires s == "paid: 5"
    ensures ExtractField(s, "id") == Some("5")
  {
    SliceIs(s, 6, "5");
    StripTrimmed("5");
    LabelInsideWordMatch(s);
    ExtractFieldIsLeftmostMatch(s, "id", 2, 6, 7);
  }

  lemma LabelInsideWordMatch(s: string)
    requires s == "paid: 5"
    ensures IsLeftmostMatch(s, "id", 2, 6, 7)
  {
    assert CanStartAt(s, "id", 2);
    forall k | 0 <= k < 2 ensures !CanStartAt(s, "id", k) {
      if CanStartAt(s, "id", k) { StartSpellsLabel(s, "id", k, 0); }
    }
  }

  /** A label followed only by whitespace gives an empty value, not `None`:
      `\s*` gives back one blank so that the capture is not empty. */
  lemma WhitespaceOnlyValue(s: string)
    requires s == "id:  "
    ensures ExtractField(s, "id") == Some("")
  {
    SliceIs(s, 4, " ");
    StripEmptyIffAllSpace(" ");
    WhitespaceOnlyMatch(s);
    ExtractFieldIsLeftmostMatch(s, "id", 0, 4, 5);
  }

  lemma WhitespaceOnlyMatch(s: string)
    requires s == "id:  "
    ensures IsLeftmostMatch(s, "id", 0, 4, 5)
  {
    assert CanStartAt(s, "id", 0);
  }

  /** Labels that appear nowhere give `None`: a page holding only an answer
      has neither an id nor a question. */
  lemma MissingLabels(s: string)
    requires s == "answer: 42"
    ensures ExtractField(s, "id") == None && ExtractField(s, "question") == None
  {
    FirstLetterAbsent(s, "id");
    FirstLetterAbsent(s, "question");
  }

  /** A label whose first letter appears nowhere in the text never starts a match. */
  lemma FirstLetterAbsent(s: string, name: string)
    requires name != [] && forall k :: 0 <= k < |s| ==> s[k] != name[0]
    ensures forall k :: !CanStartAt(s, name, k)
  {
    forall k | CanStartAt(s, name, k) ensures false {
      StartSpellsLabel(s, name, k, 0);
    }
  }

  lemma AnswerOnlyMatch(s: string)
    requires s == "answer: 42"
    ensures IsLeftmostMatch(s, "answer", 0, 8, 10)
  {
    assert CanStartAt(s, "answer", 0);
  }

  /** A page holding only an answer: the answer is found. */
  lemma AnswerOnlyAnswer(s: string)
    requires s == "answer: 42"
    ensures ExtractField(s, "answer") == Some("42")
  {
    SliceIs(s, 8, "42");
    StripTrimmed("42");
    AnswerOnlyMatch(s);
    ExtractFieldIsLeftmostMatch(s, "answer", 0, 8, 10);
  }
}

/**
 * `process_record`: one input record of the batch becomes one output record
 * with `recordId`, `data`, `errors` and `warnings`.
 *
 * The record is a decoded JSON value. Python's `dict.get` exists only on
 * dicts, and `re.search` accepts only strings, so three inputs raise: a
 * record that is not an object, a `data` that is not an object, and a truthy
 * `page_content` that is not a string. The last two are caught by the
 * handler inside `process_record`. The first is raised again by the handler
 * itself, because it calls `record.get` once more, so it escapes (Outcome.Raised).
 */
module Records {
  import opened Wrappers
  import opened PyStr
  import opened Json
  import opened Extract

  /** An exception: its kind and the value it was raised on. The text that
      `str(e)` gives for it is Python's own wording and is not modelled. */
  datatype Fault =
    | NoGetAttribute(receiver: Value)   // AttributeError: `.get` on a value that is not a dict
    | NotAString(subject: Value)        // TypeError: `re.search` on a value that is not a str

  /** The `message` of one entry of `errors`. */
  datatype ErrorMessage = Text(text: string) | ExceptionText(fault: Fault)

  /** The record returned for one input record; each warning is the `message`
      of one entry of `warnings`. */
  datatype OutputRecord = OutputRecord(
    recordId: Value,
    data: map<string, string>,
    errors: seq<ErrorMessage>,
    warnings: seq<string>)

  /** What `process_record` does with one record: return one, or raise. */
  datatype Outcome = Processed(record: OutputRecord) | Raised(fault: Fault)

  const PageContentRequired := "page_content field is required"
  const QuestionMissing := "question field not found in page_content"
  const AnswerMissing := "answer field not found in page_content"

  /** The keys `data` may carry. */
  const FieldNames: set<string> := {"id", "question", "answer"}

  /** `f'record_{index}'` */
  function DefaultRecordId(index: nat): Value {
    Str("record_" + DecimalString(index))
  }

  /** `record.get('recordId', f'record_{index}')` */
  function RecordIdOf(fields: map<string, Value>, index: nat): Value {
    Get(fields, "recordId", DefaultRecordId(index))
  }

  /** `if value:` on an `Optional[str]`: neither `None` nor empty. */
  predicate Found(v: Option<string>) {
    v.Some? && v.value != ""
  }

  /** The warnings owed for the fields missing from `data`: the question
      first, then the answer; a missing id is never reported. */
  function WarningsFor(data: map<string, string>): seq<string> {
    (if "question" in data then [] else [QuestionMissing])
    + (if "answer" in data then [] else [AnswerMissing])
  }

  /** The shape every output record has. A record-level error comes alone,
      with no data and no warnings. Otherwise the warnings are exactly those
      owed for the missing question and answer. Each value in `data` is
      non-empty, trimmed and free of blank-line separated labels. */
  ghost predicate WellFormed(r: OutputRecord) {
    && (r.errors != [] ==> |r.errors| == 1 && r.data == map[] && r.warnings == [])
    && (r.errors == [] ==> r.warnings == WarningsFor(r.data))
    && r.data.Keys <= FieldNames
    && (forall f :: f in r.data ==> r.data[f] != "" && Trimmed(r.data[f]))
    && (forall f :: f in r.data ==> LabelFree(r.data[f]))
  }

  /** A record-level failure: the one error, nothing else. */
  function Failure(recordId: Value, message: ErrorMessage): (r: OutputRecord)
    ensures WellFormed(r) && r.errors == [message] && r.recordId == recordId
  {
    OutputRecord(recordId, map[], [message], [])
  }

  /** What `extract_field` can return: nothing, or a trimmed value free of
      blank-line separated labels. */
  ghost predicate Extracted(v: Option<string>) {
    v.Some? ==> Trimmed(v.value) && LabelFree(v.value)
  }

  /** `data` holds `name` exactly when its extraction `v` found a non-empty
      value, and then holds that value. */
  ghost predicate Holds(data: map<string, string>, name: string, v: Option<string>) {
    (name in data <==> Found(v)) && (name in data ==> data[name] == v.value)
  }

  /** The success path over the three extracted values: keep those found,
      warn about a missing question or answer. */
  function Assemble(recordId: Value, extractedId: Option<string>, question: Option<string>, answer: Option<string>): (r: OutputRecord)
    requires Extracted(extractedId) && Extracted(question) && Extracted(answer)
    ensures WellFormed(r) && r.errors == [] && r.recordId == recordId
    ensures Holds(r.data, "id", extractedId) && Holds(r.data, "question", question) && Holds(r.data, "answer", answer)
  {
    var withId := if Found(extractedId) then map["id" := extractedId.value] else map[];
    var withQuestion := if Found(question) then withId["question" := question.value] else withId;
    var result := if Found(answer) then withQuestion["answer" := answer.value] else withQuestion;
    var warnings := (if Found(question) then [] else [QuestionMissing])
                    + (if Found(answer) then [] else [AnswerMissing]);
    OutputRecord(recordId, result, [], warnings)
  }

  /** Lines 58-89: extract the three fields from the page content and assemble. */
  function ExtractAll(recordId: Value, content: string): (r: OutputRecord)
    ensures WellFormed(r) && r.errors == [] && r.recordId == recordId
    ensures Holds(r.data, "id", ExtractField(content, "id"))
    ensures Holds(r.data, "question", ExtractField(content, "question"))
    ensures Holds(r.data, "answer", ExtractField(content, "answer"))
  {
    Assemble(recordId, ExtractField(content, "id"), ExtractField(content, "question"), ExtractField(content, "answer"))
  }

  /** `process_record(record, index)`. Only a record that is not an object
      escapes, with the AttributeError of `record.get`; every other record
      yields a well-formed output whose id follows the same rule on every path. */
  function ProcessRecord(record: Value, index: nat): (r: Outcome)
    ensures r.Raised? <==> !record.Object?
    ensures r.Raised? ==> r.fault == NoGetAttribute(record)
    ensures r.Processed? ==> WellFormed(r.record)
    ensures r.Processed? ==> r.record.recordId == RecordIdOf(record.fields, index)
  {
    if !record.Object? then Raised(NoGetAttribute(record))
    else
      var recordId := RecordIdOf(record.fields, index);
      var data := Get(record.fields, "data", Object(map[]));
      if !data.Object? then Processed(Failure(recordId, ExceptionText(NoGetAttribute(data))))
      else
        var pageContent := Get(data.fields, "page_content", Str(""));
        if !Truthy(pageContent) then Processed(Failure(recordId, Text(PageContentRequired)))
        else if !pageContent.Str? then Processed(Failure(recordId, ExceptionText(NotAString(pageContent))))
        else Processed(ExtractAll(recordId, pageContent.s))
  }

  /** A record that carries `recordId` keeps it, whatever its value (even
      null or empty); one without it is named after its position. */
  lemma RecordIdRule(fields: map<string, Value>, index: nat)
    ensures ProcessRecord(Object(fields), index).Processed?
    ensures "recordId" in fields ==>
      ProcessRecord(Object(fields), index).record.recordId == fields["recordId"]
    ensures "recordId" !in fields ==>
      ProcessRecord(Object(fields), index).record.recordId == Str("record_" + DecimalString(index))
  {
  }

  /** Synthesised ids of different positions differ. */
  lemma DefaultRecordIdsDistinct(i: nat, j: nat)
    requires i != j
    ensures DefaultRecordId(i) != DefaultRecordId(j)
  {
    if DefaultRecordId(i) == DefaultRecordId(j) {
      var prefix := "record_";
      assert DecimalString(i) == (prefix + DecimalString(i))[|prefix|..];
      assert DecimalString(j) == (prefix + DecimalString(j))[|prefix|..];
      DecimalStringInjective(i, j);
    }
  }

  /** The page content a well-formed record carries, if any. */
  function PageContent(fields: map<string, Value>): Option<Value> {
    if "data" in fields && fields["data"].Object? && "page_content" in fields["data"].fields
    then Some(fields["data"].fields["page_content"])
    else None
  }

  /** No `data`, no `page_content`, or a falsy one (empty string, null, ...):
      the one error "page_content field is required". */
  lemma MissingPageContent(fields: map<string, Value>, index: nat)
    requires "data" !in fields || fields["data"].Object?
    requires PageContent(fields).None? || !Truthy(PageContent(fields).value)
    ensures ProcessRecord(Object(fields), index)
      == Processed(OutputRecord(RecordIdOf(fields, index), map[], [Text(PageContentRequired)], []))
  {
  }

  /** An exception inside the handler yields exactly one error carrying the
      exception, no data and no warnings, and the record is still returned. */
  lemma CaughtFaults(fields: map<string, Value>, index: nat)
    requires
      || ("data" in fields && !fields["data"].Object?)
      || (PageContent(fields).Some? && Truthy(PageContent(fields).value) && !PageContent(fields).value.Str?)
    ensures var r := ProcessRecord(Object(fields), index);
      && r.Processed?
      && |r.record.errors| == 1 && r.record.errors[0].ExceptionText?
      && r.record.data == map[] && r.record.warnings == []
    ensures "data" in fields && !fields["data"].Object? ==>
      ProcessRecord(Object(fields), index).record.errors == [ExceptionText(NoGetAttribute(fields["data"]))]
    ensures PageContent(fields).Some? && !PageContent(fields).value.Str? ==>
      ProcessRecord(Object(fields), index).record.errors == [ExceptionText(NotAString(PageContent(fields).value))]
  {
  }

  /** Each warning names its field: the question warning is owed exactly when
      the question is missing, the answer warning exactly when the answer is. */
  lemma WarningsNameMissingFields(data: map<string, string>)
    ensures QuestionMissing in WarningsFor(data) <==> "question" !in data
    ensures AnswerMissing in WarningsFor(data) <==> "answer" !in data
  {
    assert QuestionMissing[0] != AnswerMissing[0];
  }

  /** Non-empty string page content takes the extraction path. */
  lemma PageContentIsExtracted(fields: map<string, Value>, index: nat, content: string)
    requires PageContent(fields) == Some(Str(content)) && content != ""
    ensures ProcessRecord(Object(fields), index) == Processed(ExtractAll(RecordIdOf(fields, index), content))
  {
    var data := fields["data"];
    assert Get(fields, "data", Object(map[])) == data && data.Object?;
    assert Get(data.fields, "page_content", Str("")) == Str(content);
    assert Truthy(Str(content));
  }

  /** Non-empty string page content: no errors; `data` holds exactly the
      fields whose extraction gave a non-empty value, with that value; the
      question warning is there exactly when no question was found, and the
      answer warning exactly when no answer was found. */
  lemma ExtractedRecord(fields: map<string, Value>, index: nat, content: string)
    requires PageContent(fields) == Some(Str(content)) && content != ""
    ensures ProcessRecord(Object(fields), index).Processed?
    ensures var r := ProcessRecord(Object(fields), index).record;
      && r.errors == []
      && r.data.Keys <= FieldNames
      && Holds(r.data, "id", ExtractField(content, "id"))
      && Holds(r.data, "question", ExtractField(content, "question"))
      && Holds(r.data, "answer", ExtractField(content, "answer"))
      && (QuestionMissing in r.warnings <==> !Found(ExtractField(content, "question")))
      && (AnswerMissing in r.warnings <==> !Found(ExtractField(content, "answer")))
  {
    PageContentIsExtracted(fields, index, content);
    var r := ExtractAll(RecordIdOf(fields, index), content);
    WarningsNameMissingFields(r.data);
  }

  /** Page content without any `question:` in it: the question warning is
      reported and `data` has no question. */
  lemma NoQuestionIsWarned(fields: map<string, Value>, index: nat, content: string)
    requires PageContent(fields) == Some(Str(content)) && content != ""
    requires forall k :: !OccursAt(content, "question:", k)
    ensures ProcessRecord(Object(fields), index).Processed?
    ensures QuestionMissing in ProcessRecord(Object(fields), index).record.warnings
    ensures "question" !in ProcessRecord(Object(fields), index).record.data
  {
    assert "question" + ":" == "question:";
    assert ExtractField(content, "question") == None;
    ExtractedRecord(fields, index, content);
  }
}

/** Worked examples of `process_record`. */
module RecordExamples {
  import opened Wrappers
  import opened Json
  import opened ExtractExamples
  import opened PyStr
  import opened Records

  /** A record with an id and the three-field page: every field is kept and
      nothing is reported. */
  lemma FullRecord(page: string)
    requires page == ScenarioPage
    ensures ProcessRecord(Object(map["recordId" := Str("r1"), "data" := Object(map["page_content" := Str(page)])]), 0)
      == Processed(OutputRecord(Str("r1"), map["id" := "1", "question" := "What is 2+2?", "answer" := "4"], [], []))
  {
    var fields := map["recordId" := Str("r1"), "data" := Object(map["page_content" := Str(page)])];
    assert PageContent(fields) == Some(Str(page)) && RecordIdOf(fields, 0) == Str("r1");
    assert ProcessRecord(Object(fields), 0) == Processed(ExtractAll(Str("r1"), page)) by {
      PageContentIsExtracted(fields, 0, page);
    }
    FullRecordFields(page);
  }

  lemma FullRecordFields(page: string)
    requires page == ScenarioPage
    ensures ExtractAll(Str("r1"), page)
      == OutputRecord(Str("r1"), map["id" := "1", "question" := "What is 2+2?", "answer" := "4"], [], [])
  {
    ExtractScenarioId(page);
    ExtractScenarioQuestion(page);
    ExtractScenarioAnswer(page);
  }

  /** A record without id or page content, first in its batch: named
      `record_0`, with the one error. */
  lemma RecordWithoutPageContent()
    ensures ProcessRecord(Object(map["data" := Object(map[])]), 0)
      == Processed(OutputRecord(Str("record_0"), map[], [Text(PageContentRequired)], []))
  {
    assert DecimalString(0) == "0";
  }

  /** A page with only an answer: the answer is kept and the missing question
      is reported; the missing id is not. */
  lemma AnswerOnlyRecord(page: string)
    requires page == "answer: 42"
    ensures ProcessRecord(Object(map["recordId" := Str("r3"), "data" := Object(map["page_content" := Str(page)])]), 2)
      == Processed(OutputRecord(Str("r3"), map["answer" := "42"], [], [QuestionMissing]))
  {
    var fields := map["recordId" := Str("r3"), "data" := Object(map["page_content" := Str(page)])];
    assert PageContent(fields) == Some(Str(page)) && RecordIdOf(fields, 2) == Str("r3");
    assert ProcessRecord(Object(fields), 2) == Processed(ExtractAll(Str("r3"), page)) by {
      PageContentIsExtracted(fields, 2, page);
    }
    AnswerOnlyFields(page);
  }

  lemma AnswerOnlyFields(page: string)
    requires page == "answer: 42"
    ensures ExtractAll(Str("r3"), page) == OutputRecord(Str("r3"), map["answer" := "42"], [], [QuestionMissing])
  {
    AnswerOnlyAnswer(page);
    MissingLabels(page);
  }
}

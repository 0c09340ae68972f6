/** The logger layer: the fields of an event merged with those of the spans it was emitted in. */
module Logger {
  import opened Sequences

  type SpanId = nat
  type Fields = map<string, string>
  type Records = seq<(string, string)>

  const MESSAGE := "message"

  function Lookup(fields: Fields, key: string): Option<string> {
    if key in fields then Some(fields[key]) else None
  }

  // ---- FieldVisitor ----

  /** The `else` branch of `FieldVisitor::record`. */
  function InsertField(r: (string, string), fields: Fields): Fields {
    if r.0 == MESSAGE then fields else fields[r.0 := r.1]
  }

  /** The `message` branch of `FieldVisitor::record`. */
  function PushMessage(r: (string, string), message: string): string {
    if r.0 != MESSAGE then message
    else if message == "" then r.1
    else message + " " + r.1
  }

  function FieldsOf(records: Records): Fields { Fold(InsertField, map[], records) }

  function MessageOf(records: Records): string { Fold(PushMessage, "", records) }

  method Visit(records: Records) returns (message: string, fields: Fields)
    ensures message == MessageOf(records) && fields == FieldsOf(records)
  {
    message, fields := "", map[];
    var i := 0;
    while i < |records|
      invariant 0 <= i <= |records|
      invariant message == MessageOf(records[..i]) && fields == FieldsOf(records[..i])
    {
      assert records[..i + 1][..i] == records[..i];
      var (name, value) := records[i];
      if name == MESSAGE {
        if message != "" {
          message := message + " ";
        }
        message := message + value;
      } else {
        fields := fields[name := value];
      }
      i := i + 1;
    }
    assert records[..i] == records;
  }

  function Naming(key: string): ((string, string)) -> bool {
    (r: (string, string)) => r.0 == key
  }

  /** Of several values recorded under one name the last one stays; `message` is never among the fields. */
  lemma VisitedFields(records: Records, key: string)
    ensures MESSAGE !in FieldsOf(records)
    ensures key != MESSAGE ==>
              forall i: nat :: IsLast(Naming(key), records, i) ==> Lookup(FieldsOf(records), key) == Some(records[i].1)
    ensures key != MESSAGE && Never(Naming(key), records) ==> key !in FieldsOf(records)
  {
    NoMessageAmongFields(records);
    if key != MESSAGE {
      LastWriteWins(InsertField, map[], records, (f: Fields) => Lookup(f, key), Naming(key),
                    (r: (string, string)) => Some(r.1));
    }
  }

  lemma {:induction false} NoMessageAmongFields(records: Records)
    ensures MESSAGE !in FieldsOf(records)
  {
    if records != [] {
      NoMessageAmongFields(records[..|records| - 1]);
    }
  }

  function MessageParts(records: Records): seq<string> {
    if records == [] then []
    else MessageParts(records[..|records| - 1]) +
         (if records[|records| - 1].0 == MESSAGE then [records[|records| - 1].1] else [])
  }

  function DropLeadingEmpty(parts: seq<string>): seq<string> {
    if parts != [] && parts[0] == "" then DropLeadingEmpty(parts[1..]) else parts
  }

  function JoinWithSpaces(parts: seq<string>): string {
    if parts == [] then ""
    else if |parts| == 1 then parts[0]
    else JoinWithSpaces(parts[..|parts| - 1]) + " " + parts[|parts| - 1]
  }

  lemma {:induction false} DropLeadingEmptySnoc(parts: seq<string>, last: string)
    ensures DropLeadingEmpty(parts + [last])
            == if DropLeadingEmpty(parts) == [] && last == "" then [] else DropLeadingEmpty(parts) + [last]
  {
    if parts == [] {
      assert parts + [last] == [last];
      assert [last][1..] == [];
    } else if parts[0] == "" {
      assert (parts + [last])[1..] == parts[1..] + [last];
      DropLeadingEmptySnoc(parts[1..], last);
    }
  }

  lemma {:induction false} JoinedIsEmptyIff(parts: seq<string>)
    requires parts != [] ==> parts[0] != ""
    ensures JoinWithSpaces(parts) == "" <==> parts == []
  {
    if |parts| > 1 {
      assert |JoinWithSpaces(parts)| >= 1;
    }
  }

  lemma {:induction false} DroppedStartsNonEmpty(parts: seq<string>)
    ensures DropLeadingEmpty(parts) != [] ==> DropLeadingEmpty(parts)[0] != ""
  {
    if parts != [] && parts[0] == "" {
      DroppedStartsNonEmpty(parts[1..]);
    }
  }

  /** The message is its parts joined by spaces, except that empty parts at the front leave no space. */
  lemma {:induction false} MessageIsJoined(records: Records)
    ensures MessageOf(records) == JoinWithSpaces(DropLeadingEmpty(MessageParts(records)))
  {
    if records != [] {
      var shorter, last := records[..|records| - 1], records[|records| - 1];
      MessageIsJoined(shorter);
      if last.0 == MESSAGE {
        var kept := DropLeadingEmpty(MessageParts(shorter));
        DropLeadingEmptySnoc(MessageParts(shorter), last.1);
        DroppedStartsNonEmpty(MessageParts(shorter));
        JoinedIsEmptyIff(kept);
        assert (kept + [last.1])[..|kept|] == kept;
      } else {
        assert MessageParts(records) == MessageParts(shorter);
      }
    }
  }

  // ---- Spans ----

  /** What happened to the spans of the registry. */
  datatype SpanOp = NewSpan(id: SpanId, attributes: Records) | Record(id: SpanId, values: Records)

  type Extensions = map<SpanId, Fields>

  function AfterSpanOp(op: SpanOp, ext: Extensions): Extensions {
    match op
    case NewSpan(id, attributes) => ext[id := FieldsOf(attributes)]
    case Record(id, values) =>
      if id in ext then ext[id := ext[id] + FieldsOf(values)] else ext[id := FieldsOf(values)]
  }

  function ExtensionsAfter(history: seq<SpanOp>): Extensions { Fold(AfterSpanOp, map[], history) }

  function SpanValue(ext: Extensions, id: SpanId, key: string): Option<string> {
    if id in ext then Lookup(ext[id], key) else None
  }

  predicate Sets(op: SpanOp, id: SpanId, key: string) {
    match op
    case NewSpan(i, _) => i == id
    case Record(i, values) => i == id && key in FieldsOf(values)
  }

  function RecordedValue(op: SpanOp, key: string): Option<string> {
    match op
    case NewSpan(_, attributes) => Lookup(FieldsOf(attributes), key)
    case Record(_, values) => Lookup(FieldsOf(values), key)
  }

  function Setting(id: SpanId, key: string): SpanOp -> bool { op => Sets(op, id, key) }

  /** A span holds, under each name, the value recorded last since it was created. */
  lemma SpanHoldsLatest(history: seq<SpanOp>, id: SpanId, key: string)
    ensures forall i: nat :: IsLast(Setting(id, key), history, i) ==>
              SpanValue(ExtensionsAfter(history), id, key) == RecordedValue(history[i], key)
    ensures Never(Setting(id, key), history) ==> SpanValue(ExtensionsAfter(history), id, key) == None
  {
    LastWriteWins(AfterSpanOp, map[], history, (e: Extensions) => SpanValue(e, id, key), Setting(id, key),
                  (op: SpanOp) => RecordedValue(op, key));
  }

  predicate NoMessages(ext: Extensions) { forall id :: id in ext ==> MESSAGE !in ext[id] }

  lemma {:induction false} SpansHoldNoMessage(history: seq<SpanOp>)
    ensures NoMessages(ExtensionsAfter(history))
  {
    if history != [] {
      var op := history[|history| - 1];
      SpansHoldNoMessage(history[..|history| - 1]);
      NoMessageAmongFields(if op.NewSpan? then op.attributes else op.values);
    }
  }

  // ---- Events ----

  /** `fields` with the entries of `span` added where there is none yet (`entry(..).or_insert_with(..)`). */
  function OrInsertAll(fields: Fields, span: Fields): Fields { span + fields }

  /** The fields logged for an event with own fields `own` in the spans `scope`, outermost first. */
  function Merged(own: Fields, ext: Extensions, scope: seq<SpanId>): Fields {
    if scope == [] then own
    else
      var before := Merged(own, ext, scope[..|scope| - 1]);
      var span := scope[|scope| - 1];
      if span in ext then OrInsertAll(before, ext[span]) else before
  }

  /** `i` is the outermost span of `scope` with a value under `key`. */
  predicate Outermost(ext: Extensions, scope: seq<SpanId>, key: string, i: nat) {
    && i < |scope| && SpanValue(ext, scope[i], key).Some?
    && forall j :: 0 <= j < i ==> SpanValue(ext, scope[j], key) == None
  }

  /** The event's own value first, then the outermost span that has one, then nothing. */
  lemma {:induction false} MergedValue(own: Fields, ext: Extensions, scope: seq<SpanId>, key: string)
    ensures key in own ==> Lookup(Merged(own, ext, scope), key) == Some(own[key])
    ensures key !in own ==> forall i: nat :: Outermost(ext, scope, key, i) ==>
              Lookup(Merged(own, ext, scope), key) == SpanValue(ext, scope[i], key)
    ensures key !in own && (forall i :: 0 <= i < |scope| ==> SpanValue(ext, scope[i], key) == None) ==>
              key !in Merged(own, ext, scope)
  {
    if scope != [] {
      var shorter := scope[..|scope| - 1];
      MergedValue(own, ext, shorter, key);
      forall i: nat | key !in own && Outermost(ext, scope, key, i)
        ensures Lookup(Merged(own, ext, scope), key) == SpanValue(ext, scope[i], key)
      {
        if i < |shorter| {
          assert Outermost(ext, shorter, key, i);
        } else {
          assert forall j :: 0 <= j < |shorter| ==> shorter[j] == scope[j];
        }
      }
      if key !in own && (forall i :: 0 <= i < |scope| ==> SpanValue(ext, scope[i], key) == None) {
        assert forall j :: 0 <= j < |shorter| ==> SpanValue(ext, scope[j], key) == None && shorter[j] == scope[j];
      }
    }
  }

  lemma {:induction false} MergedHasNoMessage(own: Fields, ext: Extensions, scope: seq<SpanId>)
    requires MESSAGE !in own && NoMessages(ext)
    ensures MESSAGE !in Merged(own, ext, scope)
  {
    if scope != [] {
      MergedHasNoMessage(own, ext, scope[..|scope| - 1]);
    }
  }

  datatype LogLine = LogLine(message: string, fields: Fields)

  class LoggerLayer {
    var extensions: Extensions
    ghost var history: seq<SpanOp>
    var lines: seq<LogLine>

    ghost predicate Valid()
      reads this
    {
      extensions == ExtensionsAfter(history)
    }

    constructor ()
      ensures Valid() && history == [] && lines == []
    {
      extensions, history, lines := map[], [], [];
    }

    method OnNewSpan(id: SpanId, attributes: Records)
      requires Valid()
      modifies this
      ensures Valid() && history == old(history) + [NewSpan(id, attributes)] && lines == old(lines)
    {
      var _, fields := Visit(attributes);
      extensions := extensions[id := fields];
      history := history + [NewSpan(id, attributes)];
      assert history[..|history| - 1] == old(history);
    }

    method OnRecord(id: SpanId, values: Records)
      requires Valid()
      modifies this
      ensures Valid() && history == old(history) + [Record(id, values)] && lines == old(lines)
    {
      var _, fields := Visit(values);
      if id in extensions {
        extensions := extensions[id := extensions[id] + fields];
      } else {
        extensions := extensions[id := fields];
      }
      history := history + [Record(id, values)];
      assert history[..|history| - 1] == old(history);
    }

    /** The scope is the spans the event was emitted in, from the root down. */
    method OnEvent(records: Records, scope: seq<SpanId>)
      requires Valid()
      modifies this`lines
      ensures Valid()
      ensures lines == old(lines)
                       + [LogLine(MessageOf(records), Merged(FieldsOf(records), ExtensionsAfter(history), scope))]
    {
      var message, fields := Visit(records);
      var i := 0;
      while i < |scope|
        invariant 0 <= i <= |scope|
        invariant fields == Merged(FieldsOf(records), extensions, scope[..i])
        invariant lines == old(lines)
      {
        assert scope[..i + 1][..i] == scope[..i];
        if scope[i] in extensions {
          fields := InsertMissing(fields, extensions[scope[i]]);
        }
        i := i + 1;
      }
      assert scope[..i] == scope;
      lines := lines + [LogLine(message, fields)];
    }
  }

  /** The inner loop of `on_event`; a hash map yields its entries in any order. */
  method InsertMissing(fields: Fields, span: Fields) returns (merged: Fields)
    ensures merged == OrInsertAll(fields, span)
  {
    merged := fields;
    var names := span.Keys;
    while names != {}
      invariant names <= span.Keys
      invariant merged == (map k | k in span.Keys - names :: span[k]) + fields
    {
      var name :| name in names;
      if name !in merged {
        merged := merged[name := span[name]];
      }
      names := names - {name};
    }
    assert (map k | k in span.Keys - names :: span[k]) == span;
  }

  /** No logged line has a `message` field, and each field is the event's own or the outermost span's latest. */
  lemma LoggedFields(history: seq<SpanOp>, records: Records, scope: seq<SpanId>, key: string)
    ensures var logged, ext := Merged(FieldsOf(records), ExtensionsAfter(history), scope), ExtensionsAfter(history);
            && MESSAGE !in logged
            && (key in FieldsOf(records) ==> Lookup(logged, key) == Some(FieldsOf(records)[key]))
            && (key !in FieldsOf(records) ==>
                  forall i: nat, n: nat ::
                    Outermost(ext, scope, key, i) && IsLast(Setting(scope[i], key), history, n) ==>
                      Lookup(logged, key) == RecordedValue(history[n], key))
  {
    var ext := ExtensionsAfter(history);
    NoMessageAmongFields(records);
    SpansHoldNoMessage(history);
    MergedHasNoMessage(FieldsOf(records), ext, scope);
    MergedValue(FieldsOf(records), ext, scope, key);
    forall i: nat, n: nat | key !in FieldsOf(records) && Outermost(ext, scope, key, i)
      && IsLast(Setting(scope[i], key), history, n)
      ensures Lookup(Merged(FieldsOf(records), ext, scope), key) == RecordedValue(history[n], key)
    {
      SpanHoldsLatest(history, scope[i], key);
    }
  }
}

/** `src/components/ExportOptions.tsx`: filtering a session's messages,
    building the export record, rendering it as plain text, CSV or Markdown,
    and choosing the download file name. */
module Export {
  import opened Wrappers
  import opened Text
  import opened Seqs
  import Csv
  import opened Api

  /** The dialog's options. `format` and `filterByModel` stay strings so that a
      value outside their unions reaches the `default:` branch. */
  datatype ExportConfig = ExportConfig(format: string, includeMetadata: bool, includeTimestamps: bool,
                                       includeModelInfo: bool, includeCostData: bool, filterByModel: string)

  const DefaultConfig := ExportConfig("json", true, true, true, false, "all")

  const Formats: seq<string> := ["json", "txt", "csv", "md"]

  /** `session?.…` for each field: all absent when there is no session. */
  datatype SessionInfo = SessionInfo(id: Option<string>, title: Option<string>, createdAt: Option<string>,
                                     turnCount: Option<int>, isPaused: Option<bool>)

  datatype ExportInfo = ExportInfo(exportedAt: string, format: string, messageCount: nat, filter: string)

  datatype Metadata = Metadata(session: SessionInfo, exportInfo: ExportInfo)

  datatype ModelInfo = ModelInfo(kind: string, isAi: bool)

  datatype ExportedMessage = ExportedMessage(id: string, modelType: string, content: string,
                                             createdAt: Option<string>, modelInfo: Option<ModelInfo>)

  /** The object `generateExportData` builds; `metadata` holds its `session` and `export_info` keys. */
  datatype ExportData = ExportData(metadata: Option<Metadata>, messages: seq<ExportedMessage>)

  // ---- Building the record ---------------------------------------------------------

  /** `filterMessages`. */
  function FilterMessages(filter: string, ms: seq<ChatMessage>): (r: seq<ChatMessage>)
    ensures filter == "all" ==> r == ms
    ensures filter != "all" ==> forall i :: 0 <= i < |r| ==> r[i].modelType == filter
    ensures IsSubsequence(r, ms)
  {
    if filter == "all" then
      IsSubsequenceRefl(ms);
      ms
    else
      var r := Filter(ms, (m: ChatMessage) => m.modelType == filter);
      FilterIsSubsequence(ms, (m: ChatMessage) => m.modelType == filter);
      forall i | 0 <= i < |r| ensures r[i].modelType == filter {
        FilterMembership(ms, (m: ChatMessage) => m.modelType == filter, r[i]);
      }
      r
  }

  lemma {:induction false} IsSubsequenceRefl<T>(xs: seq<T>)
    ensures IsSubsequence(xs, xs)
    decreases |xs|
  {
    if |xs| > 0 {
      IsSubsequenceRefl(xs[1..]);
    }
  }

  /** A message is exported exactly when it is in the list and passes the filter. */
  lemma FilterMessagesKeeps(filter: string, ms: seq<ChatMessage>, m: ChatMessage)
    ensures m in FilterMessages(filter, ms) <==> m in ms && (filter == "all" || m.modelType == filter)
  {
    if filter != "all" {
      FilterMembership(ms, (x: ChatMessage) => x.modelType == filter, m);
    }
  }

  function SessionInfoOf(session: Option<ChatSession>): (r: SessionInfo)
    ensures session.None? ==> r == SessionInfo(None, None, None, None, None)
    ensures session.Some? ==>
      (r.id == Some(session.value.id) && r.title == session.value.title
       && r.createdAt == Some(session.value.createdAt) && r.turnCount == Some(session.value.turnCount)
       && r.isPaused == Some(session.value.isPaused))
  {
    match session
    case None => SessionInfo(None, None, None, None, None)
    case Some(s) => SessionInfo(Some(s.id), s.title, Some(s.createdAt), Some(s.turnCount), Some(s.isPaused))
  }

  /** One message of the export: with timestamps it keeps everything of the row
      but its session, and its model info marks every non-user message as AI. */
  function ExportMessage(cfg: ExportConfig, m: ChatMessage): (r: ExportedMessage)
    ensures cfg.includeTimestamps ==> Restore(r, m.sessionId) == m
    ensures r.modelInfo.Some? <==> cfg.includeModelInfo
    ensures r.modelInfo.Some? ==> (r.modelInfo.value.isAi <==> m.modelType != "user")
  {
    ExportedMessage(m.id, m.modelType, m.content,
                    if cfg.includeTimestamps then Some(m.createdAt) else None,
                    if cfg.includeModelInfo then Some(ModelInfo(m.modelType, m.modelType != "user")) else None)
  }

  /** `generateExportData`; `exportedAt` is the clock's ISO string. */
  function GenerateExportData(cfg: ExportConfig, session: Option<ChatSession>, ms: seq<ChatMessage>, exportedAt: string): (d: ExportData)
    ensures d.metadata.Some? <==> cfg.includeMetadata
    ensures d.metadata.Some? ==>
      (d.metadata.value.session == SessionInfoOf(session)
       && d.metadata.value.exportInfo == ExportInfo(exportedAt, cfg.format, |d.messages|, cfg.filterByModel))
    ensures var f := FilterMessages(cfg.filterByModel, ms);
      |d.messages| == |f|
      && forall i :: 0 <= i < |f| ==>
        d.messages[i].id == f[i].id && d.messages[i].modelType == f[i].modelType && d.messages[i].content == f[i].content
        && (d.messages[i].createdAt.Some? <==> cfg.includeTimestamps)
        && (d.messages[i].createdAt.Some? ==> d.messages[i].createdAt.value == f[i].createdAt)
        && (d.messages[i].modelInfo.Some? <==> cfg.includeModelInfo)
        && (d.messages[i].modelInfo.Some? ==>
              d.messages[i].modelInfo.value.kind == f[i].modelType
              && (d.messages[i].modelInfo.value.isAi <==> f[i].modelType != "user"))
  {
    var f := FilterMessages(cfg.filterByModel, ms);
    var exported := seq(|f|, i requires 0 <= i < |f| => ExportMessage(cfg, f[i]));
    ExportData(if cfg.includeMetadata
               then Some(Metadata(SessionInfoOf(session), ExportInfo(exportedAt, cfg.format, |f|, cfg.filterByModel)))
               else None,
               exported)
  }

  /** `includeCostData` is offered in the dialog but changes nothing in the export. */
  lemma CostFlagIgnored(cfg: ExportConfig, session: Option<ChatSession>, ms: seq<ChatMessage>, exportedAt: string)
    ensures GenerateExportData(cfg, session, ms, exportedAt)
         == GenerateExportData(cfg.(includeCostData := !cfg.includeCostData), session, ms, exportedAt)
  {
  }

  /** A message of the export, turned back into a row of the given session. */
  function Restore(e: ExportedMessage, sessionId: string): ChatMessage {
    ChatMessage(e.id, sessionId, e.modelType, e.content, if e.createdAt.Some? then e.createdAt.value else "")
  }

  /** An export of a session's messages with metadata and timestamps loses
      nothing: the filtered rows can be rebuilt from it, their session id
      taken from the `session.id` the metadata carries. */
  lemma ExportRestores(cfg: ExportConfig, session: Option<ChatSession>, ms: seq<ChatMessage>, exportedAt: string)
    requires cfg.includeTimestamps && cfg.includeMetadata && session.Some?
    requires forall i :: 0 <= i < |ms| ==> ms[i].sessionId == session.value.id
    ensures var d := GenerateExportData(cfg, session, ms, exportedAt);
      d.metadata.Some? && d.metadata.value.session.id.Some? &&
      var sid := d.metadata.value.session.id.value;
      seq(|d.messages|, i requires 0 <= i < |d.messages| => Restore(d.messages[i], sid))
        == FilterMessages(cfg.filterByModel, ms)
  {
    var sid := session.value.id;
    var f := FilterMessages(cfg.filterByModel, ms);
    forall i | 0 <= i < |f| ensures f[i].sessionId == sid {
      FilterMessagesKeeps(cfg.filterByModel, ms, f[i]);
    }
  }

  // ---- Rendering ----------------------------------------------------------------

  /** The speaker column shared by the text and CSV renderings. */
  function Speaker(modelType: string): (r: string)
    ensures r in ["User", "Model A", "Model B", "System"]
    ensures r == "User" <==> modelType == "user"
    ensures r == "Model A" <==> modelType == "A"
    ensures r == "Model B" <==> modelType == "B"
    ensures r == "System" <==> modelType !in ["user", "A", "B"]
  {
    if modelType == "user" then "User"
    else if modelType == "A" then "Model A"
    else if modelType == "B" then "Model B"
    else "System"
  }

  /** A value interpolated into a template, `${v}`: absent fields print `undefined`. */
  function Shown(v: Option<string>): string {
    if v.Some? then v.value else "undefined"
  }

  function ShownInt(v: Option<int>): string {
    if v.Some? then IntToString(v.value) else "undefined"
  }

  /** `new Date(v).toLocaleString()`: `localize` stands for the browser's locale
      formatting; no value at all gives `Invalid Date`. */
  function DateText(v: Option<string>, localize: string -> string): string {
    if v.Some? then localize(v.value) else "Invalid Date"
  }

  /** `config.includeMetadata && data.session`. */
  predicate HasHeader(cfg: ExportConfig, d: ExportData) {
    cfg.includeMetadata && d.metadata.Some?
  }

  /** `config.includeTimestamps && msg.created_at`. */
  predicate ShowsTime(cfg: ExportConfig, m: ExportedMessage) {
    cfg.includeTimestamps && m.createdAt.Some? && m.createdAt.value != ""
  }

  // -- plain text --

  function TextHeader(cfg: ExportConfig, d: ExportData, localize: string -> string): string {
    if HasHeader(cfg, d) then
      var s := d.metadata.value.session;
      TextHeaderOf(OrElse(s.title, Shown(s.id)), DateText(s.createdAt, localize), ShownInt(s.turnCount))
    else ""
  }

  function TextHeaderOf(title: string, created: string, turns: string): string {
    "Session: " + title + "\n" + "Created: " + created + "\n" + "Turn Count: " + turns + "\n\n"
    + Repeat('=', 50) + "\n\n"
  }

  /** The header written line by line, as `exportAsText` appends it. */
  lemma TextHeaderSteps(title: string, created: string, turns: string)
    ensures "" + "Session: " + title + "\n" + "Created: " + created + "\n" + "Turn Count: " + turns + "\n\n"
      + Repeat('=', 50) + "\n\n" == TextHeaderOf(title, created, turns)
  {
  }

  /** ` (date)` after the speaker, or nothing. */
  function TextStamp(cfg: ExportConfig, m: ExportedMessage, localize: string -> string): string {
    if ShowsTime(cfg, m) then " (" + localize(m.createdAt.value) + ")" else ""
  }

  function TextBlockOf(speaker: string, stamp: string, content: string): string {
    speaker + stamp + ":\n" + content + "\n\n"
  }

  function TextBlock(cfg: ExportConfig, m: ExportedMessage, localize: string -> string): string {
    TextBlockOf(Speaker(m.modelType), TextStamp(cfg, m, localize), m.content)
  }

  /** The text `exportAsText` produces: it opens with the session header exactly
      when metadata is shown, and is empty for an export with neither. */
  function TextDocument(cfg: ExportConfig, d: ExportData, localize: string -> string): (r: string)
    ensures HasHeader(cfg, d) ==> |r| >= 9 && r[..9] == "Session: "
    ensures !HasHeader(cfg, d) && |d.messages| == 0 ==> r == ""
  {
    var h := TextHeader(cfg, d, localize);
    var body := ConcatMap(d.messages, m => TextBlock(cfg, m, localize));
    if HasHeader(cfg, d) then
      var s := d.metadata.value.session;
      TextHeaderShape(OrElse(s.title, Shown(s.id)), DateText(s.createdAt, localize), ShownInt(s.turnCount));
      assert (h + body)[..9] == h[..9];
      h + body
    else
      h + body
  }

  /** `exportAsText`. */
  method ExportAsText(cfg: ExportConfig, d: ExportData, localize: string -> string) returns (content: string)
    ensures content == TextDocument(cfg, d, localize)
  {
    content := "";
    if cfg.includeMetadata && d.metadata.Some? {
      var s := d.metadata.value.session;
      var title, created, turns := OrElse(s.title, Shown(s.id)), DateText(s.createdAt, localize), ShownInt(s.turnCount);
      content := content + "Session: " + title + "\n";
      content := content + "Created: " + created + "\n";
      content := content + "Turn Count: " + turns + "\n\n";
      content := content + Repeat('=', 50) + "\n\n";
      assert content == TextHeader(cfg, d, localize) by {
        TextHeaderSteps(title, created, turns);
      }
    }
    var header := content;
    var f := (m: ExportedMessage) => TextBlock(cfg, m, localize);
    assert content == header + ConcatMap(d.messages[..0], f);
    for i := 0 to |d.messages|
      invariant content == header + ConcatMap(d.messages[..i], f)
    {
      var msg := d.messages[i];
      var speaker, stamp := Speaker(msg.modelType), "";
      if cfg.includeTimestamps && msg.createdAt.Some? && msg.createdAt.value != "" {
        stamp := " (" + localize(msg.createdAt.value) + ")";
      }
      var block := speaker + stamp;
      block := block + ":\n";
      block := block + msg.content + "\n\n";
      assert block == f(msg) by {
        TextBlockSteps(speaker, stamp, msg.content);
        assert stamp == TextStamp(cfg, msg, localize);
      }
      assert content + block == header + ConcatMap(d.messages[..i + 1], f) by {
        PrefixSnoc(d.messages, i);
        ConcatMapSnoc(d.messages[..i], msg, f);
        AppendAssoc(header, ConcatMap(d.messages[..i], f), block);
      }
      content := content + block;
    }
    assert d.messages[..|d.messages|] == d.messages;
  }

  lemma AppendAssoc(a: string, b: string, c: string)
    ensures a + b + c == a + (b + c)
  {
  }

  lemma TextBlockSteps(speaker: string, stamp: string, content: string)
    ensures speaker + stamp + ":\n" + (content + "\n\n") == TextBlockOf(speaker, stamp, content)
  {
  }

  /** The text rendering's shape: the header block only with metadata, and then
      one block per message that begins with its speaker and ends with its content. */
  lemma TextLayout(cfg: ExportConfig, d: ExportData, localize: string -> string, m: ExportedMessage)
    ensures !HasHeader(cfg, d) ==> TextDocument(cfg, d, localize) == ConcatMap(d.messages, x => TextBlock(cfg, x, localize))
    ensures HasHeader(cfg, d) ==> TextDocument(cfg, d, localize)[..9] == "Session: "
    ensures var b := TextBlock(cfg, m, localize);
      Speaker(m.modelType) <= b && b[|b| - |m.content| - 2..] == m.content + "\n\n"
  {
    TextBlockShape(Speaker(m.modelType), TextStamp(cfg, m, localize), m.content);
    if !HasHeader(cfg, d) {
      var body := ConcatMap(d.messages, x => TextBlock(cfg, x, localize));
      assert TextHeader(cfg, d, localize) + body == body;
    }
  }

  lemma TextBlockShape(speaker: string, stamp: string, content: string)
    ensures var b := TextBlockOf(speaker, stamp, content);
      speaker <= b && |b| >= |content| + 2 && b[|b| - |content| - 2..] == content + "\n\n"
  {
    var pre := speaker + stamp + ":\n";
    var b := TextBlockOf(speaker, stamp, content);
    assert b == pre + (content + "\n\n");
    assert b[|pre|..] == content + "\n\n";
    assert b[..|speaker|] == speaker;
  }

  lemma TextHeaderShape(title: string, created: string, turns: string)
    ensures |TextHeaderOf(title, created, turns)| >= 9 && TextHeaderOf(title, created, turns)[..9] == "Session: "
  {
    var h := TextHeaderOf(title, created, turns);
    assert h == "Session: " + (title + "\n" + "Created: " + created + "\n" + "Turn Count: " + turns + "\n\n"
      + Repeat('=', 50) + "\n\n");
  }

  // -- CSV --

  function CsvHeaders(cfg: ExportConfig): (r: seq<string>)
    ensures |r| == 3 + (if cfg.includeTimestamps then 1 else 0) + (if cfg.includeModelInfo then 1 else 0)
  {
    ["Index", "Speaker", "Content"]
    + (if cfg.includeTimestamps then ["Timestamp"] else [])
    + (if cfg.includeModelInfo then ["Model Type"] else [])
  }

  /** `msg.created_at || ''`. */
  function CreatedText(m: ExportedMessage): string {
    if m.createdAt.Some? then m.createdAt.value else ""
  }

  /** The `row` array for the message at 1-based position `index`, as written. */
  function CsvRow(cfg: ExportConfig, index: nat, m: ExportedMessage): (r: seq<string>)
    ensures |r| == |CsvHeaders(cfg)|
  {
    [NatToString(index), Csv.Quote(Speaker(m.modelType)), Csv.Quote(Csv.Escape(m.content))]
    + (if cfg.includeTimestamps then [Csv.Quote(CreatedText(m))] else [])
    + (if cfg.includeModelInfo then [Csv.Quote(m.modelType)] else [])
  }

  /** What a CSV reader should find in that row. */
  function CsvValues(cfg: ExportConfig, index: nat, m: ExportedMessage): (r: seq<string>)
    ensures |r| == |CsvHeaders(cfg)|
  {
    [NatToString(index), Speaker(m.modelType), m.content]
    + (if cfg.includeTimestamps then [CreatedText(m)] else [])
    + (if cfg.includeModelInfo then [m.modelType] else [])
  }

  function CsvRows(cfg: ExportConfig, ms: seq<ExportedMessage>): (r: seq<seq<string>>)
    ensures |r| == |ms|
  {
    seq(|ms|, i requires 0 <= i < |ms| => CsvRow(cfg, i + 1, ms[i]))
  }

  /** The table a CSV reader should recover: the header names, then one row of values per message. */
  function CsvTable(cfg: ExportConfig, ms: seq<ExportedMessage>): (r: seq<seq<string>>)
    ensures |r| == |ms| + 1 && r[0] == CsvHeaders(cfg)
    ensures forall i :: 0 <= i < |ms| ==> r[i + 1] == CsvValues(cfg, i + 1, ms[i])
  {
    [CsvHeaders(cfg)] + seq(|ms|, i requires 0 <= i < |ms| => CsvValues(cfg, i + 1, ms[i]))
  }

  /** The text `exportAsCSV` produces: the header record first, then one record per message. */
  function CsvDocument(cfg: ExportConfig, d: ExportData): (r: string)
    ensures Csv.Record(CsvHeaders(cfg)) <= r
    ensures r[|r| - 1] == '\n'
  {
    Csv.Document([CsvHeaders(cfg)] + CsvRows(cfg, d.messages))
  }

  /** `exportAsCSV`. */
  method ExportAsCsv(cfg: ExportConfig, d: ExportData) returns (csv: string)
    ensures csv == CsvDocument(cfg, d)
  {
    var headers := ["Index", "Speaker", "Content"];
    if cfg.includeTimestamps {
      headers := headers + ["Timestamp"];
    }
    if cfg.includeModelInfo {
      headers := headers + ["Model Type"];
    }
    assert headers == CsvHeaders(cfg);
    csv := Join(headers, ",") + "\n";
    assert csv == ConcatMap([headers], Csv.Record);
    for i := 0 to |d.messages|
      invariant csv == ConcatMap([headers] + CsvRows(cfg, d.messages[..i]), Csv.Record)
    {
      var msg := d.messages[i];
      var row := [NatToString(i + 1), "\"" + Speaker(msg.modelType) + "\"", "\"" + Csv.Escape(msg.content) + "\""];
      if cfg.includeTimestamps {
        row := row + ["\"" + CreatedText(msg) + "\""];
      }
      if cfg.includeModelInfo {
        row := row + ["\"" + msg.modelType + "\""];
      }
      assert row == CsvRow(cfg, i + 1, msg) by {
        CsvRowAsBuilt(cfg, i + 1, msg);
      }
      CsvStep(cfg, headers, d.messages, i, csv, row);
      csv := csv + Join(row, ",") + "\n";
    }
    assert d.messages[..|d.messages|] == d.messages;
  }

  /** Appending the record of message `i` extends the document by that row. */
  lemma CsvStep(cfg: ExportConfig, headers: seq<string>, ms: seq<ExportedMessage>, i: nat, csv: string, row: seq<string>)
    requires i < |ms| && row == CsvRow(cfg, i + 1, ms[i])
    requires csv == ConcatMap([headers] + CsvRows(cfg, ms[..i]), Csv.Record)
    ensures csv + Join(row, ",") + "\n" == ConcatMap([headers] + CsvRows(cfg, ms[..i + 1]), Csv.Record)
  {
    PrefixSnoc(ms, i);
    CsvRowsSnoc(cfg, ms[..i], ms[i]);
    assert [headers] + CsvRows(cfg, ms[..i + 1]) == ([headers] + CsvRows(cfg, ms[..i])) + [row];
    ConcatMapSnoc([headers] + CsvRows(cfg, ms[..i]), row, Csv.Record);
    AppendAssoc(csv, Join(row, ","), "\n");
  }

  /** The row as `exportAsCSV` spells it, with template-literal quotes. */
  lemma CsvRowAsBuilt(cfg: ExportConfig, index: nat, m: ExportedMessage)
    ensures CsvRow(cfg, index, m)
         == [NatToString(index), "\"" + Speaker(m.modelType) + "\"", "\"" + Csv.Escape(m.content) + "\""]
            + (if cfg.includeTimestamps then ["\"" + CreatedText(m) + "\""] else [])
            + (if cfg.includeModelInfo then ["\"" + m.modelType + "\""] else [])
  {
  }

  lemma CsvRowsSnoc(cfg: ExportConfig, ms: seq<ExportedMessage>, m: ExportedMessage)
    ensures CsvRows(cfg, ms + [m]) == CsvRows(cfg, ms) + [CsvRow(cfg, |ms| + 1, m)]
  {
    var l, r := CsvRows(cfg, ms + [m]), CsvRows(cfg, ms) + [CsvRow(cfg, |ms| + 1, m)];
    forall i | 0 <= i < |l| ensures l[i] == r[i] {
      if i < |ms| {
        assert (ms + [m])[i] == ms[i];
      }
    }
  }

  /** Every record has as many fields as the header line, and the first field is the 1-based position. */
  lemma CsvRecordShape(cfg: ExportConfig, d: ExportData, i: nat)
    requires i < |d.messages|
    ensures |CsvRows(cfg, d.messages)[i]| == |CsvHeaders(cfg)|
    ensures DigitsValue(CsvRows(cfg, d.messages)[i][0]) == i + 1
  {
    DigitsValueOfNatToString(i + 1);
  }

  /** Reading the CSV back gives the header names and, per message, its position,
      speaker, exact content and the enabled columns, provided the two columns
      that are quoted without escaping hold no double quote. */
  lemma CsvRoundTrip(cfg: ExportConfig, d: ExportData)
    requires forall i :: 0 <= i < |d.messages| ==>
      (cfg.includeTimestamps ==> Csv.NoQuote(CreatedText(d.messages[i])))
      && (cfg.includeModelInfo ==> Csv.NoQuote(d.messages[i].modelType))
    ensures Csv.ParseDocument(CsvDocument(cfg, d)) == Some(CsvTable(cfg, d.messages))
  {
    var ms := d.messages;
    var wires := [CsvHeaders(cfg)] + CsvRows(cfg, ms);
    var values := CsvTable(cfg, ms);
    CsvShapes(cfg, ms);
    CsvFieldsEncode(cfg, ms);
    Csv.ParseDocumentEncoded(wires, values);
  }

  lemma CsvShapes(cfg: ExportConfig, ms: seq<ExportedMessage>)
    ensures var wires := [CsvHeaders(cfg)] + CsvRows(cfg, ms);
      |wires| == |CsvTable(cfg, ms)|
      && forall r :: 0 <= r < |wires| ==> |wires[r]| == |CsvTable(cfg, ms)[r]| > 0
  {
    var wires := [CsvHeaders(cfg)] + CsvRows(cfg, ms);
    forall r | 0 <= r < |wires| ensures |wires[r]| == |CsvTable(cfg, ms)[r]| > 0 {
      if r > 0 {
        WireAt(cfg, ms, r);
      }
    }
  }

  /** Record `r` of the written table is the row of message `r - 1`. */
  lemma WireAt(cfg: ExportConfig, ms: seq<ExportedMessage>, r: nat)
    requires 0 < r <= |ms|
    ensures ([CsvHeaders(cfg)] + CsvRows(cfg, ms))[r] == CsvRow(cfg, r, ms[r - 1])
  {
    assert ([CsvHeaders(cfg)] + CsvRows(cfg, ms))[r] == CsvRows(cfg, ms)[r - 1];
  }

  lemma CsvFieldsEncode(cfg: ExportConfig, ms: seq<ExportedMessage>)
    requires forall i :: 0 <= i < |ms| ==>
      (cfg.includeTimestamps ==> Csv.NoQuote(CreatedText(ms[i])))
      && (cfg.includeModelInfo ==> Csv.NoQuote(ms[i].modelType))
    ensures var wires := [CsvHeaders(cfg)] + CsvRows(cfg, ms);
      forall r, k :: 0 <= r < |wires| && 0 <= k < |wires[r]| && r < |CsvTable(cfg, ms)| && k < |CsvTable(cfg, ms)[r]|
        ==> Csv.Encodes(wires[r][k], CsvTable(cfg, ms)[r][k])
  {
    var wires := [CsvHeaders(cfg)] + CsvRows(cfg, ms);
    var values := CsvTable(cfg, ms);
    forall r, k | 0 <= r < |wires| && 0 <= k < |wires[r]| && r < |values| && k < |values[r]|
      ensures Csv.Encodes(wires[r][k], values[r][k])
    {
      if r == 0 {
        HeadersBare(cfg, k);
      } else {
        WireAt(cfg, ms, r);
        RowEncodes(cfg, r, ms[r - 1], k);
      }
    }
  }

  lemma HeadersBare(cfg: ExportConfig, k: nat)
    requires k < |CsvHeaders(cfg)|
    ensures Csv.Encodes(CsvHeaders(cfg)[k], CsvHeaders(cfg)[k])
  {
    assert Csv.Bare(CsvHeaders(cfg)[k]);
  }

  lemma RowEncodes(cfg: ExportConfig, index: nat, m: ExportedMessage, k: nat)
    requires k < |CsvHeaders(cfg)|
    requires cfg.includeTimestamps ==> Csv.NoQuote(CreatedText(m))
    requires cfg.includeModelInfo ==> Csv.NoQuote(m.modelType)
    ensures Csv.Encodes(CsvRow(cfg, index, m)[k], CsvValues(cfg, index, m)[k])
  {
    var w := CsvRow(cfg, index, m);
    var v := CsvValues(cfg, index, m);
    var ts := if cfg.includeTimestamps then [CreatedText(m)] else [];
    var mi := if cfg.includeModelInfo then [m.modelType] else [];
    var base := [NatToString(index), Speaker(m.modelType), m.content];
    assert v == base + ts + mi;
    assert w == [NatToString(index), Csv.Quote(Speaker(m.modelType)), Csv.Quote(Csv.Escape(m.content))]
      + (if cfg.includeTimestamps then [Csv.Quote(CreatedText(m))] else [])
      + (if cfg.includeModelInfo then [Csv.Quote(m.modelType)] else []);
    if k == 0 {
      assert w[0] == NatToString(index) && v[0] == NatToString(index);
      Csv.DigitsAreBare(NatToString(index));
    } else if k == 1 {
      assert w[1] == Csv.Quote(Speaker(m.modelType)) && v[1] == Speaker(m.modelType);
      Csv.QuotedWithoutQuotes(Speaker(m.modelType));
    } else if k == 2 {
      assert w[2] == Csv.Quote(Csv.Escape(m.content)) && v[2] == m.content;
    } else if k == 3 && cfg.includeTimestamps {
      assert w[3] == Csv.Quote(CreatedText(m)) && v[3] == CreatedText(m);
      Csv.QuotedWithoutQuotes(CreatedText(m));
    } else {
      assert cfg.includeModelInfo;
      assert w[k] == Csv.Quote(m.modelType) && v[k] == m.modelType;
      Csv.QuotedWithoutQuotes(m.modelType);
    }
  }

  // -- Markdown --

  /** The Markdown speaker line, with its emoji. */
  function MarkdownSpeaker(modelType: string): string {
    if modelType == "user" then "\U{1F464} **User**"
    else if modelType == "A" then "\U{1F916} **Model A**"
    else if modelType == "B" then "\U{1F916} **Model B**"
    else "\U{2699}\U{FE0F} **System**"
  }

  function MarkdownHeader(cfg: ExportConfig, d: ExportData, localize: string -> string): string {
    if HasHeader(cfg, d) then
      var s := d.metadata.value.session;
      MarkdownHeaderOf(OrElse(s.title, "AI Steering Session"), Shown(s.id), DateText(s.createdAt, localize), ShownInt(s.turnCount))
    else ""
  }

  function MarkdownHeaderOf(title: string, id: string, created: string, turns: string): string {
    "# " + title + "\n\n" + "**Session ID:** " + id + "\n" + "**Created:** " + created + "\n"
    + "**Turn Count:** " + turns + "\n\n" + "---\n\n"
  }

  /** The header written line by line, as `exportAsMarkdown` appends it. */
  lemma MarkdownHeaderSteps(title: string, id: string, created: string, turns: string)
    ensures "" + "# " + title + "\n\n" + "**Session ID:** " + id + "\n" + "**Created:** " + created + "\n"
      + "**Turn Count:** " + turns + "\n\n" + "---\n\n" == MarkdownHeaderOf(title, id, created, turns)
  {
  }

  lemma MarkdownHeaderShape(title: string, id: string, created: string, turns: string)
    ensures "# " <= MarkdownHeaderOf(title, id, created, turns)
  {
    var h := MarkdownHeaderOf(title, id, created, turns);
    assert h == "# " + (title + "\n\n" + "**Session ID:** " + id + "\n" + "**Created:** " + created + "\n"
      + "**Turn Count:** " + turns + "\n\n" + "---\n\n");
  }

  /** ` *(date)*` after the speaker, or nothing. */
  function MarkdownStamp(cfg: ExportConfig, m: ExportedMessage, localize: string -> string): string {
    if ShowsTime(cfg, m) then " *(" + localize(m.createdAt.value) + ")*" else ""
  }

  function MarkdownBlockOf(speaker: string, stamp: string, content: string): string {
    speaker + stamp + "\n\n" + content + "\n\n" + "---\n\n"
  }

  lemma MarkdownBlockSteps(speaker: string, stamp: string, content: string)
    ensures speaker + stamp + "\n\n" + (content + "\n\n") + "---\n\n" == MarkdownBlockOf(speaker, stamp, content)
  {
  }

  function MarkdownBlock(cfg: ExportConfig, m: ExportedMessage, localize: string -> string): string {
    MarkdownBlockOf(MarkdownSpeaker(m.modelType), MarkdownStamp(cfg, m, localize), m.content)
  }

  /** The text `exportAsMarkdown` produces: it opens with the `# ` title line
      exactly when metadata is shown, and is empty for an export with neither. */
  function MarkdownDocument(cfg: ExportConfig, d: ExportData, localize: string -> string): (r: string)
    ensures HasHeader(cfg, d) ==> "# " <= r
    ensures !HasHeader(cfg, d) && |d.messages| == 0 ==> r == ""
  {
    var h := MarkdownHeader(cfg, d, localize);
    var body := ConcatMap(d.messages, m => MarkdownBlock(cfg, m, localize));
    if HasHeader(cfg, d) then
      var s := d.metadata.value.session;
      MarkdownHeaderShape(OrElse(s.title, "AI Steering Session"), Shown(s.id), DateText(s.createdAt, localize), ShownInt(s.turnCount));
      assert (h + body)[..2] == h[..2];
      h + body
    else
      h + body
  }

  /** `exportAsMarkdown`. */
  method ExportAsMarkdown(cfg: ExportConfig, d: ExportData, localize: string -> string) returns (content: string)
    ensures content == MarkdownDocument(cfg, d, localize)
  {
    content := "";
    if cfg.includeMetadata && d.metadata.Some? {
      var s := d.metadata.value.session;
      var title, id, created, turns :=
        OrElse(s.title, "AI Steering Session"), Shown(s.id), DateText(s.createdAt, localize), ShownInt(s.turnCount);
      content := content + "# " + title + "\n\n";
      content := content + "**Session ID:** " + id + "\n";
      content := content + "**Created:** " + created + "\n";
      content := content + "**Turn Count:** " + turns + "\n\n";
      content := content + "---\n\n";
      assert content == MarkdownHeader(cfg, d, localize) by {
        MarkdownHeaderSteps(title, id, created, turns);
      }
    }
    var header := content;
    var f := (m: ExportedMessage) => MarkdownBlock(cfg, m, localize);
    assert content == header + ConcatMap(d.messages[..0], f);
    for i := 0 to |d.messages|
      invariant content == header + ConcatMap(d.messages[..i], f)
    {
      var msg := d.messages[i];
      var speaker, stamp := MarkdownSpeaker(msg.modelType), "";
      if cfg.includeTimestamps && msg.createdAt.Some? && msg.createdAt.value != "" {
        stamp := " *(" + localize(msg.createdAt.value) + ")*";
      }
      var block := speaker + stamp;
      block := block + "\n\n";
      block := block + msg.content + "\n\n";
      block := block + "---\n\n";
      assert block == f(msg) by {
        MarkdownBlockSteps(speaker, stamp, msg.content);
        assert stamp == MarkdownStamp(cfg, msg, localize);
      }
      assert content + block == header + ConcatMap(d.messages[..i + 1], f) by {
        PrefixSnoc(d.messages, i);
        ConcatMapSnoc(d.messages[..i], msg, f);
        AppendAssoc(header, ConcatMap(d.messages[..i], f), block);
      }
      content := content + block;
    }
    assert d.messages[..|d.messages|] == d.messages;
  }

  /** Each Markdown block ends with the message content and a horizontal rule. */
  lemma MarkdownBlockEnds(cfg: ExportConfig, m: ExportedMessage, localize: string -> string)
    ensures var b := MarkdownBlock(cfg, m, localize);
      |b| >= |m.content| + 7 && b[|b| - |m.content| - 7..] == m.content + "\n\n---\n\n"
  {
    var b := MarkdownBlock(cfg, m, localize);
    var pre := MarkdownSpeaker(m.modelType) + (if ShowsTime(cfg, m) then " *(" + localize(m.createdAt.value) + ")*" else "") + "\n\n";
    assert b == pre + (m.content + "\n\n---\n\n");
    assert b[|pre|..] == m.content + "\n\n---\n\n";
  }

  // ---- Download ----------------------------------------------------------------------

  /** The file name `handleExport` picks, or the error its `default:` branch throws. */
  function FileName(format: string, sessionId: string): (r: Result<string, string>)
    ensures r.Success? <==> format in Formats
    ensures r.Success? ==> r.value == "ai-steering-session-" + Take(sessionId, 8) + "." + format
    ensures r.Failure? ==> r.error == "Unsupported format"
  {
    match format
    case "json" => Success("ai-steering-session-" + Take(sessionId, 8) + ".json")
    case "txt" => Success("ai-steering-session-" + Take(sessionId, 8) + ".txt")
    case "csv" => Success("ai-steering-session-" + Take(sessionId, 8) + ".csv")
    case "md" => Success("ai-steering-session-" + Take(sessionId, 8) + ".md")
    case _ => Failure("Unsupported format")
  }

  /** For one session, different formats download under different names. */
  lemma FileNamesDistinct(f1: string, f2: string, sessionId: string)
    requires f1 in Formats && f2 in Formats && f1 != f2
    ensures FileName(f1, sessionId).value != FileName(f2, sessionId).value
  {
    var p := "ai-steering-session-" + Take(sessionId, 8) + ".";
    assert FileName(f1, sessionId).value == p + f1;
    assert FileName(f2, sessionId).value == p + f2;
    assert (p + f1)[|p|..] == f1;
    assert (p + f2)[|p|..] == f2;
  }

  /** `JSON.stringify` is not modelled: a JSON file carries the record itself. */
  datatype FilePayload = JsonFile(data: ExportData) | TextFile(text: string)

  datatype ExportOutcome = NotStarted | Downloaded(filename: string, payload: FilePayload) | ExportFailed

  /** The payload the format's renderer produces. */
  function Payload(cfg: ExportConfig, d: ExportData, localize: string -> string): FilePayload {
    if cfg.format == "txt" then TextFile(TextDocument(cfg, d, localize))
    else if cfg.format == "csv" then TextFile(CsvDocument(cfg, d))
    else if cfg.format == "md" then TextFile(MarkdownDocument(cfg, d, localize))
    else JsonFile(d)
  }

  /** `handleExport`: nothing without a session; otherwise build the record, render
      it in the chosen format and download it, or fail in the `default:` branch. */
  method HandleExport(cfg: ExportConfig, session: Option<ChatSession>, ms: seq<ChatMessage>,
                      exportedAt: string, localize: string -> string) returns (out: ExportOutcome)
    ensures session.None? ==> out == NotStarted
    ensures session.Some? && cfg.format !in Formats ==> out == ExportFailed
    ensures session.Some? && cfg.format in Formats ==>
      out == Downloaded(FileName(cfg.format, session.value.id).value,
                        Payload(cfg, GenerateExportData(cfg, session, ms, exportedAt), localize))
  {
    if session.None? {
      return NotStarted;
    }
    var d := GenerateExportData(cfg, session, ms, exportedAt);
    var name := FileName(cfg.format, session.value.id);
    if name.Failure? {
      return ExportFailed;
    }
    var payload: FilePayload;
    if cfg.format == "json" {
      payload := JsonFile(d);
    } else if cfg.format == "txt" {
      var t := ExportAsText(cfg, d, localize);
      payload := TextFile(t);
    } else if cfg.format == "csv" {
      var t := ExportAsCsv(cfg, d);
      payload := TextFile(t);
    } else {
      var t := ExportAsMarkdown(cfg, d, localize);
      payload := TextFile(t);
    }
    out := Downloaded(name.value, payload);
  }

  // ---- Clipboard -----------------------------------------------------------------------

  /** What lands on the clipboard. */
  datatype ClipboardText = PrettyJson(data: ExportData) | CompactJson(data: ExportData) | PlainText(text: string)

  /** `handleCopyToClipboard` as written: `exportAsText` returns a `Blob`, never a
      string, so every format other than JSON copies the compact JSON. */
  function ClipboardAsWritten(cfg: ExportConfig, d: ExportData): (r: ClipboardText)
    ensures cfg.format == "json" ==> r == PrettyJson(d)
    ensures cfg.format != "json" ==> r == CompactJson(d)
  {
    if cfg.format == "json" then PrettyJson(d) else CompactJson(d)
  }

  /** A text-format copy does not carry the text rendering. */
  lemma ClipboardSkipsText(cfg: ExportConfig, d: ExportData, localize: string -> string)
    requires cfg.format == "txt"
    ensures ClipboardAsWritten(cfg, d) != PlainText(TextDocument(cfg, d, localize))
    ensures ClipboardAsWritten(cfg, d).CompactJson?
  {
  }

  /** `handleCopyToClipboard` as its `typeof text === 'string'` test intends:
      the text rendering for every format but JSON. */
  function Clipboard(cfg: ExportConfig, d: ExportData, localize: string -> string): (r: ClipboardText)
    ensures cfg.format == "json" ==> r == PrettyJson(d)
    ensures cfg.format != "json" ==> r == PlainText(TextDocument(cfg, d, localize))
  {
    if cfg.format == "json" then PrettyJson(d) else PlainText(TextDocument(cfg, d, localize))
  }

  /** Corrected, a text copy holds exactly what the text download holds. */
  lemma ClipboardMatchesTextDownload(cfg: ExportConfig, d: ExportData, localize: string -> string)
    requires cfg.format == "txt"
    ensures Payload(cfg, d, localize).TextFile?
    ensures Clipboard(cfg, d, localize) == PlainText(Payload(cfg, d, localize).text)
  {
  }
}

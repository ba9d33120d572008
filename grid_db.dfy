/** The record-store glue of apps/libs/griddb.ts: configuration guards, the
    lazily created client, the create-only-if-absent container rule, id
    computation, and the mappings between records and rows. The GridDB Web API
    client itself stays abstract: what it answers is given as a Remote value,
    and every request sent through it is appended to a log. */
module GridDb {
  import opened Js

  // ---------------------------------------------------------------------------
  // Configuration
  // ---------------------------------------------------------------------------

  datatype Config = Config(
    griddbWebApiUrl: JsString,
    username: JsString,
    password: JsString,
    timeout: nat,
    retryAttempts: nat,
    retryDelay: nat)

  const ADMIN := Ascii("admin")

  /** `GRIDDB_CONFIG`, from `GRIDDB_WEBAPI_URL`, `GRIDDB_USERNAME` and
      `GRIDDB_PASSWORD`. */
  function MakeConfig(url: Option<JsString>, username: Option<JsString>, password: Option<JsString>): Config {
    Config(OrDefault(url, []), OrDefault(username, ADMIN), OrDefault(password, ADMIN), 30000, 3, 1000)
  }

  /** `if (!GRIDDB_CONFIG.griddbWebApiUrl)` fails. */
  predicate IsConfigured(c: Config) {
    c.griddbWebApiUrl != []
  }

  /** The store counts as configured exactly when `GRIDDB_WEBAPI_URL` is set
      to a non-empty string; unset or empty credentials fall back to
      `admin`. */
  lemma ConfiguredIffUrlSet(url: Option<JsString>, username: Option<JsString>, password: Option<JsString>)
    ensures IsConfigured(MakeConfig(url, username, password)) <==> IsSet(url)
    ensures IsSet(url) ==> MakeConfig(url, username, password).griddbWebApiUrl == url.value
    ensures !IsSet(username) ==> MakeConfig(url, username, password).username == Ascii("admin")
    ensures !IsSet(password) ==> MakeConfig(url, username, password).password == Ascii("admin")
  {
  }

  // ---------------------------------------------------------------------------
  // Schema
  // ---------------------------------------------------------------------------

  const CONTAINER_NAME := Ascii("music_generations")

  /** The columns of the container, which are also the properties of the
      inserted and of the read records. */
  datatype Field =
    | Id | Timestamp | Zone | TemperatureC | HumidityPct | Co2Ppm | VocIndex | Occupancy | NoiseDba
    | ProductivityScore | TrendCo2PpmDelta | TrendNoiseDbaDelta | TrendProductivityDelta
    | MusicBrief | MusicPrompt | AudioPath | AudioFilename | MusicLengthMs | ModelId | GenerationTimestamp

  /** The name a field has on the wire. */
  function Name(f: Field): JsString {
    match f
    case Id => Ascii("id")
    case Timestamp => Ascii("timestamp")
    case Zone => Ascii("zone")
    case TemperatureC => Ascii("temperature_c")
    case HumidityPct => Ascii("humidity_pct")
    case Co2Ppm => Ascii("co2_ppm")
    case VocIndex => Ascii("voc_index")
    case Occupancy => Ascii("occupancy")
    case NoiseDba => Ascii("noise_dba")
    case ProductivityScore => Ascii("productivity_score")
    case TrendCo2PpmDelta => Ascii("trend_10min_co2_ppm_delta")
    case TrendNoiseDbaDelta => Ascii("trend_10min_noise_dba_delta")
    case TrendProductivityDelta => Ascii("trend_10min_productivity_delta")
    case MusicBrief => Ascii("music_brief")
    case MusicPrompt => Ascii("music_prompt")
    case AudioPath => Ascii("audio_path")
    case AudioFilename => Ascii("audio_filename")
    case MusicLengthMs => Ascii("music_length_ms")
    case ModelId => Ascii("model_id")
    case GenerationTimestamp => Ascii("generation_timestamp")
  }

  /** The fields of `MusicGenerationRecord`, in declaration order. */
  const RECORD_FIELDS: seq<Field> := [
    Timestamp, Zone, TemperatureC, HumidityPct, Co2Ppm, VocIndex, Occupancy, NoiseDba,
    ProductivityScore, TrendCo2PpmDelta, TrendNoiseDbaDelta, TrendProductivityDelta,
    MusicBrief, MusicPrompt, AudioPath, AudioFilename, MusicLengthMs, ModelId, GenerationTimestamp]

  datatype ColumnType = IntegerType | LongType | TimestampType | StringType | DoubleType

  datatype Column = Column(name: Field, columnType: ColumnType)

  /** The columns `createContainerIfNotExists` creates. */
  const COLUMNS: seq<Column> := [
    Column(Id, IntegerType),
    Column(Timestamp, TimestampType),
    Column(Zone, StringType),
    Column(TemperatureC, DoubleType),
    Column(HumidityPct, IntegerType),
    Column(Co2Ppm, IntegerType),
    Column(VocIndex, IntegerType),
    Column(Occupancy, IntegerType),
    Column(NoiseDba, IntegerType),
    Column(ProductivityScore, IntegerType),
    Column(TrendCo2PpmDelta, IntegerType),
    Column(TrendNoiseDbaDelta, IntegerType),
    Column(TrendProductivityDelta, IntegerType),
    Column(MusicBrief, StringType),
    Column(MusicPrompt, StringType),
    Column(AudioPath, StringType),
    Column(AudioFilename, StringType),
    Column(MusicLengthMs, IntegerType),
    Column(ModelId, StringType),
    Column(GenerationTimestamp, TimestampType)]

  /** The schema has 20 columns: an INTEGER `id` first, then the 19 record
      fields in the order the record interface declares them; `id` is not a
      record field. */
  lemma ColumnsFollowRecord()
    ensures |COLUMNS| == 20 && |RECORD_FIELDS| == 19
    ensures COLUMNS[0] == Column(Id, IntegerType) && Id !in RECORD_FIELDS
    ensures forall i :: 0 <= i < |RECORD_FIELDS| ==> COLUMNS[i + 1].name == RECORD_FIELDS[i]
    ensures COLUMNS[1].columnType == TimestampType && COLUMNS[19].columnType == TimestampType
  {
  }

  /** Where a field sits in the schema. */
  function ColumnIndex(f: Field): nat {
    match f
    case Id => 0
    case Timestamp => 1
    case Zone => 2
    case TemperatureC => 3
    case HumidityPct => 4
    case Co2Ppm => 5
    case VocIndex => 6
    case Occupancy => 7
    case NoiseDba => 8
    case ProductivityScore => 9
    case TrendCo2PpmDelta => 10
    case TrendNoiseDbaDelta => 11
    case TrendProductivityDelta => 12
    case MusicBrief => 13
    case MusicPrompt => 14
    case AudioPath => 15
    case AudioFilename => 16
    case MusicLengthMs => 17
    case ModelId => 18
    case GenerationTimestamp => 19
  }

  /** No column is listed twice: neither as a field nor under its wire name. */
  lemma ColumnNamesDistinct()
    ensures forall i, j :: 0 <= i < j < |COLUMNS| ==> COLUMNS[i].name != COLUMNS[j].name
    ensures forall i, j :: 0 <= i < j < |COLUMNS| ==> Name(COLUMNS[i].name) != Name(COLUMNS[j].name)
  {
    assert forall i :: 0 <= i < |COLUMNS| ==> ColumnIndex(COLUMNS[i].name) == i;
    forall i, j | 0 <= i < j < |COLUMNS|
      ensures Name(COLUMNS[i].name) != Name(COLUMNS[j].name)
    {
      NameInjective(COLUMNS[i].name, COLUMNS[j].name);
    }
  }

  /** Distinct fields have distinct wire names. */
  lemma NameInjective(f: Field, g: Field)
    ensures Name(f) == Name(g) <==> f == g
  {
    NameDetermines(f);
    NameDetermines(g);
    SameKeySameField(Name(f), Name(g), f, g);
  }

  /** Equal wire names have equal length and first code unit, so they name the
      same field. */
  lemma SameKeySameField(n: JsString, m: JsString, f: Field, g: Field)
    requires |n| > 0 && FieldNamed(|n|, n[0]) == Some(f)
    requires |m| > 0 && FieldNamed(|m|, m[0]) == Some(g)
    ensures n == m ==> f == g
  {
  }

  /** The field whose wire name has the given length and first code unit.
      Lengths are unique except for 9 (`timestamp`, `occupancy`, `voc_index`,
      `noise_dba`) and 12 (`humidity_pct`, `music_prompt`), and there the
      first letters differ. */
  function FieldNamed(length: nat, first: CodeUnit): Option<Field> {
    if length == 2 then Some(Id)
    else if length == 4 then Some(Zone)
    else if length == 7 then Some(Co2Ppm)
    else if length == 8 then Some(ModelId)
    else if length == 9 then
      if first == 116 then Some(Timestamp)       // t
      else if first == 111 then Some(Occupancy)  // o
      else if first == 118 then Some(VocIndex)   // v
      else if first == 110 then Some(NoiseDba)   // n
      else None
    else if length == 10 then Some(AudioPath)
    else if length == 11 then Some(MusicBrief)
    else if length == 12 then
      if first == 104 then Some(HumidityPct)     // h
      else if first == 109 then Some(MusicPrompt) // m
      else None
    else if length == 13 then Some(TemperatureC)
    else if length == 14 then Some(AudioFilename)
    else if length == 15 then Some(MusicLengthMs)
    else if length == 18 then Some(ProductivityScore)
    else if length == 20 then Some(GenerationTimestamp)
    else if length == 25 then Some(TrendCo2PpmDelta)
    else if length == 27 then Some(TrendNoiseDbaDelta)
    else if length == 30 then Some(TrendProductivityDelta)
    else None
  }

  /** The length and first code unit of a wire name give its field back. */
  lemma NameDetermines(f: Field)
    ensures |Name(f)| > 0 && FieldNamed(|Name(f)|, Name(f)[0]) == Some(f)
  {
    match f
    case Id =>
    case Timestamp =>
    case Zone =>
    case TemperatureC =>
    case HumidityPct =>
    case Co2Ppm =>
    case VocIndex =>
    case Occupancy =>
    case NoiseDba =>
    case ProductivityScore =>
    case TrendCo2PpmDelta =>
    case TrendNoiseDbaDelta =>
    case TrendProductivityDelta =>
    case MusicBrief =>
    case MusicPrompt =>
    case AudioPath =>
    case AudioFilename =>
    case MusicLengthMs =>
    case ModelId =>
    case GenerationTimestamp =>
  }

  // ---------------------------------------------------------------------------
  // Records and rows
  // ---------------------------------------------------------------------------

  /** `MusicGenerationRecord`. */
  datatype MusicGenerationRecord = MusicGenerationRecord(
    timestamp: JsString,
    zone: JsString,
    temperatureC: real,
    humidityPct: real,
    co2Ppm: real,
    vocIndex: real,
    occupancy: real,
    noiseDba: real,
    productivityScore: real,
    trendCo2PpmDelta: real,
    trendNoiseDbaDelta: real,
    trendProductivityDelta: real,
    musicBrief: JsString,
    musicPrompt: JsString,
    audioPath: JsString,
    audioFilename: JsString,
    musicLengthMs: real,
    modelId: JsString,
    generationTimestamp: JsString)

  /** A value of the object handed to `insert`: a number, a string, or a
      `Date` (`None` is an Invalid Date, which `new Date` yields rather than
      throwing). */
  datatype Cell = IntCell(i: int) | NumberCell(n: real) | StringCell(s: JsString) | DateCell(ms: Option<int>)

  /** What a record holds under one of its fields. */
  function RecordCell(r: MusicGenerationRecord, f: Field): Cell
    requires f != Id
  {
    match f
    case Timestamp => StringCell(r.timestamp)
    case Zone => StringCell(r.zone)
    case TemperatureC => NumberCell(r.temperatureC)
    case HumidityPct => NumberCell(r.humidityPct)
    case Co2Ppm => NumberCell(r.co2Ppm)
    case VocIndex => NumberCell(r.vocIndex)
    case Occupancy => NumberCell(r.occupancy)
    case NoiseDba => NumberCell(r.noiseDba)
    case ProductivityScore => NumberCell(r.productivityScore)
    case TrendCo2PpmDelta => NumberCell(r.trendCo2PpmDelta)
    case TrendNoiseDbaDelta => NumberCell(r.trendNoiseDbaDelta)
    case TrendProductivityDelta => NumberCell(r.trendProductivityDelta)
    case MusicBrief => StringCell(r.musicBrief)
    case MusicPrompt => StringCell(r.musicPrompt)
    case AudioPath => StringCell(r.audioPath)
    case AudioFilename => StringCell(r.audioFilename)
    case MusicLengthMs => NumberCell(r.musicLengthMs)
    case ModelId => StringCell(r.modelId)
    case GenerationTimestamp => StringCell(r.generationTimestamp)
  }

  /** The record read field by field. */
  function RecordCells(r: MusicGenerationRecord): map<Field, Cell> {
    map f | f in RECORD_FIELDS :: RecordCell(r, f)
  }

  /** One property of the `data` object of `saveMusicGeneration`.
      `parseDate` is `new Date(s)` reduced to its millisecond value. */
  function InsertCell(r: MusicGenerationRecord, id: int, parseDate: JsString -> Option<int>, f: Field): Cell {
    match f
    case Id => IntCell(id)
    case Timestamp => DateCell(parseDate(r.timestamp))
    case Zone => StringCell(r.zone)
    case TemperatureC => NumberCell(r.temperatureC)
    case HumidityPct => NumberCell(r.humidityPct)
    case Co2Ppm => NumberCell(r.co2Ppm)
    case VocIndex => NumberCell(r.vocIndex)
    case Occupancy => NumberCell(r.occupancy)
    case NoiseDba => NumberCell(r.noiseDba)
    case ProductivityScore => NumberCell(r.productivityScore)
    case TrendCo2PpmDelta => NumberCell(r.trendCo2PpmDelta)
    case TrendNoiseDbaDelta => NumberCell(r.trendNoiseDbaDelta)
    case TrendProductivityDelta => NumberCell(r.trendProductivityDelta)
    case MusicBrief => StringCell(r.musicBrief)
    case MusicPrompt => StringCell(r.musicPrompt)
    case AudioPath => StringCell(r.audioPath)
    case AudioFilename => StringCell(r.audioFilename)
    case MusicLengthMs => NumberCell(r.musicLengthMs)
    case ModelId => StringCell(r.modelId)
    case GenerationTimestamp => DateCell(parseDate(r.generationTimestamp))
  }

  /** The `data` object of `saveMusicGeneration`, one property per column. */
  function InsertData(r: MusicGenerationRecord, id: int, parseDate: JsString -> Option<int>): map<Field, Cell> {
    map f | f in ColumnNames() :: InsertCell(r, id, parseDate, f)
  }

  /** The names of the schema's columns. */
  function ColumnNames(): set<Field> {
    set c | c in COLUMNS :: c.name
  }

  /** The inserted row is the record with its two timestamps turned into dates
      and the fresh id added, and it fills exactly the schema's columns. */
  lemma InsertDataCarriesRecord(r: MusicGenerationRecord, id: int, parseDate: JsString -> Option<int>)
    ensures InsertData(r, id, parseDate) ==
      RecordCells(r)[Timestamp := DateCell(parseDate(r.timestamp))]
                    [GenerationTimestamp := DateCell(parseDate(r.generationTimestamp))]
                    [Id := IntCell(id)]
    ensures InsertData(r, id, parseDate).Keys == ColumnNames()
  {
    var d := InsertData(r, id, parseDate);
    var e := RecordCells(r)[Timestamp := DateCell(parseDate(r.timestamp))]
                           [GenerationTimestamp := DateCell(parseDate(r.generationTimestamp))]
                           [Id := IntCell(id)];
    forall f: Field
      ensures f in d && f in e && d[f] == e[f]
    {
      InsertDataHas(r, id, parseDate, f);
      ExpectedCellAt(r, id, parseDate, f);
      InsertDataAt(r, id, parseDate, f);
    }
    assert d.Keys == e.Keys;
  }

  /** Every field is a key of the inserted row. */
  lemma InsertDataHas(r: MusicGenerationRecord, id: int, parseDate: JsString -> Option<int>, f: Field)
    ensures f in InsertData(r, id, parseDate)
    ensures InsertData(r, id, parseDate)[f] == InsertCell(r, id, parseDate, f)
  {
    EveryFieldHasAColumn(f);
  }

  /** Field by field, the record's cells with the dates and the id put in. */
  lemma ExpectedCellAt(r: MusicGenerationRecord, id: int, parseDate: JsString -> Option<int>, f: Field)
    ensures var e := RecordCells(r)[Timestamp := DateCell(parseDate(r.timestamp))]
                                   [GenerationTimestamp := DateCell(parseDate(r.generationTimestamp))]
                                   [Id := IntCell(id)];
      && f in e
      && e[f] == if f == Id then IntCell(id)
                 else if f == Timestamp then DateCell(parseDate(r.timestamp))
                 else if f == GenerationTimestamp then DateCell(parseDate(r.generationTimestamp))
                 else RecordCell(r, f)
  {
    EveryFieldIsAColumn(f);
  }

  /** Field by field: the id, the dates of the two timestamps, and every other
      field exactly as the record holds it. */
  lemma InsertDataAt(r: MusicGenerationRecord, id: int, parseDate: JsString -> Option<int>, f: Field)
    ensures InsertCell(r, id, parseDate, f) ==
      if f == Id then IntCell(id)
      else if f == Timestamp then DateCell(parseDate(r.timestamp))
      else if f == GenerationTimestamp then DateCell(parseDate(r.generationTimestamp))
      else RecordCell(r, f)
  {
    match f
    case Id =>
    case Timestamp =>
    case Zone =>
    case TemperatureC =>
    case HumidityPct =>
    case Co2Ppm =>
    case VocIndex =>
    case Occupancy =>
    case NoiseDba =>
    case ProductivityScore =>
    case TrendCo2PpmDelta =>
    case TrendNoiseDbaDelta =>
    case TrendProductivityDelta =>
    case MusicBrief =>
    case MusicPrompt =>
    case AudioPath =>
    case AudioFilename =>
    case MusicLengthMs =>
    case ModelId =>
    case GenerationTimestamp =>
  }

  /** Every field is a column of the schema. */
  lemma EveryFieldHasAColumn(f: Field)
    ensures f in ColumnNames()
  {
    EveryFieldIsAColumn(f);
    if f == Id {
      assert COLUMNS[0].name == f;
    } else {
      ColumnsFollowRecord();
      var i :| 0 <= i < |RECORD_FIELDS| && RECORD_FIELDS[i] == f;
      assert COLUMNS[i + 1].name == f;
    }
  }

  /** Every field is the id or a record field. */
  lemma EveryFieldIsAColumn(f: Field)
    ensures f == Id || f in RECORD_FIELDS
  {
  }

  /** One element of `results.map(row => ({ ... }))`: every record field
      copied from the row's property of the same name (the row's `id` and
      anything else are dropped; a missing property reads as `undefined`). */
  function RowToRecord(row: JsValue): JsValue {
    Obj(map k | k in RecordNames() :: Prop(row, k))
  }

  /** The wire names of the record fields. */
  function RecordNames(): set<JsString> {
    set f | f in RECORD_FIELDS :: Name(f)
  }

  /** A mapped record holds exactly the record fields, each copied from the
      row, and never the id. */
  lemma RowToRecordCopiesFields(row: JsValue)
    ensures RowToRecord(row).props.Keys == RecordNames()
    ensures forall f :: f in RECORD_FIELDS ==> Prop(RowToRecord(row), Name(f)) == Prop(row, Name(f))
    ensures Prop(RowToRecord(row), Name(Id)) == Undefined
  {
    forall f | f in RECORD_FIELDS
      ensures Name(f) != Name(Id)
    {
      NameLength(f);
    }
  }

  /** Only the id has a two-unit name. */
  lemma NameLength(f: Field)
    requires f != Id
    ensures |Name(f)| > 2 == |Name(Id)|
  {
    match f
    case Timestamp =>
    case Zone =>
    case TemperatureC =>
    case HumidityPct =>
    case Co2Ppm =>
    case VocIndex =>
    case Occupancy =>
    case NoiseDba =>
    case ProductivityScore =>
    case TrendCo2PpmDelta =>
    case TrendNoiseDbaDelta =>
    case TrendProductivityDelta =>
    case MusicBrief =>
    case MusicPrompt =>
    case AudioPath =>
    case AudioFilename =>
    case MusicLengthMs =>
    case ModelId =>
    case GenerationTimestamp =>
  }

  /** `results.map(...)`: one record per row, in the same order. */
  function RowsToRecords(rows: seq<JsValue>): (records: seq<JsValue>)
    ensures |records| == |rows|
    ensures forall i :: 0 <= i < |rows| ==> records[i] == RowToRecord(rows[i])
  {
    if rows == [] then [] else [RowToRecord(rows[0])] + RowsToRecords(rows[1..])
  }

  // ---------------------------------------------------------------------------
  // Ids
  // ---------------------------------------------------------------------------

  /** The largest value of a GridDB INTEGER column. */
  const INTEGER_MAX := 2_147_483_647

  /** `(Date.now() % 1000000) * 1000 + Math.floor(Math.random() * 1000)`, with
      the clock reading `nowMs` and the random component `random`. */
  function MakeId(nowMs: nat, random: int): (id: int)
    requires 0 <= random < 1000
    ensures 0 <= id <= 999_999_999 < INTEGER_MAX
    ensures id % 1000 == random && id / 1000 == nowMs % 1_000_000
  {
    (nowMs % 1_000_000) * 1000 + random
  }

  /** Two ids are equal exactly when the clock readings agree modulo 1000000
      and the random components agree. */
  lemma MakeIdCollision(now1: nat, random1: int, now2: nat, random2: int)
    requires 0 <= random1 < 1000 && 0 <= random2 < 1000
    ensures MakeId(now1, random1) == MakeId(now2, random2) <==>
            now1 % 1_000_000 == now2 % 1_000_000 && random1 == random2
  {
    var id1 := MakeId(now1, random1);
    var id2 := MakeId(now2, random2);
    if id1 == id2 {
      assert id1 % 1000 == id2 % 1000 && id1 / 1000 == id2 / 1000;
    }
  }

  /** The id is not unique across time: readings 1000000 ms apart with the
      same random component give the same id. */
  lemma IdRepeatsAfterAMillionMilliseconds(nowMs: nat, random: int)
    requires 0 <= random < 1000
    ensures MakeId(nowMs, random) == MakeId(nowMs + 1_000_000, random)
  {
    MakeIdCollision(nowMs, random, nowMs + 1_000_000, random);
  }

  // ---------------------------------------------------------------------------
  // The client and what it is asked
  // ---------------------------------------------------------------------------

  /** What `getSchema` returns; `columns` may be absent. */
  datatype Schema = Schema(columns: Option<seq<Column>>)

  datatype ContainerOptions = ContainerOptions(containerName: JsString, columns: seq<Column>, containerType: JsString, rowkey: bool)

  datatype SelectQuery = SelectQuery(
    containerName: JsString,
    where: Option<JsString>,
    bindings: seq<JsString>,
    orderBy: JsString,
    order: JsString,
    limit: real)

  /** A request sent through the client. */
  datatype ClientCall =
    | ContainerExists(name: JsString)
    | GetSchema(name: JsString)
    | CreateContainer(options: ContainerOptions)
    | Insert(containerName: JsString, data: map<Field, Cell>)
    | Select(query: SelectQuery)

  /** What the store answers to each kind of request during one operation
      (each kind is asked at most once per operation). */
  datatype Remote = Remote(
    containerExists: Result<bool>,
    getSchema: Result<Schema>,
    createContainer: Result<()>,
    insert: Result<()>,
    select: Result<seq<JsValue>>)

  const CREATE_OPTIONS := ContainerOptions(CONTAINER_NAME, COLUMNS, Ascii("COLLECTION"), true)

  /** The requests `createContainerIfNotExists` sends: the existence check,
      then the schema read when the container exists, or the creation when it
      does not. */
  function ContainerCalls(remote: Remote): seq<ClientCall> {
    match remote.containerExists
    case Err(_) => [ContainerExists(CONTAINER_NAME)]
    case Ok(true) => [ContainerExists(CONTAINER_NAME), GetSchema(CONTAINER_NAME)]
    case Ok(false) => [ContainerExists(CONTAINER_NAME), CreateContainer(CREATE_OPTIONS)]
  }

  /** How `createContainerIfNotExists` ends: a failed existence check or a
      failed creation is rethrown; a schema that cannot be read, or whose `id`
      column is INTEGER, is only logged. */
  function ContainerOutcome(remote: Remote): Result<()> {
    match remote.containerExists
    case Err(e) => Err(e)
    case Ok(true) => Ok(())
    case Ok(false) => remote.createContainer
  }

  /** Create only if absent: the container is created exactly when the store
      says it does not exist, with the 20-column schema; an existing container
      is never recreated, whatever its schema says or whether it can be read. */
  lemma CreateOnlyIfAbsent(remote: Remote)
    ensures (exists o :: CreateContainer(o) in ContainerCalls(remote)) <==> remote.containerExists == Ok(false)
    ensures forall o :: CreateContainer(o) in ContainerCalls(remote) ==> o.columns == COLUMNS && o.rowkey
    ensures remote.containerExists == Ok(true) ==> ContainerOutcome(remote) == Ok(())
  {
    if remote.containerExists == Ok(false) {
      assert ContainerCalls(remote)[1] == CreateContainer(CREATE_OPTIONS);
    }
  }

  /** An existing container whose `id` column is INTEGER, one with a LONG id
      and one whose schema cannot be read are all treated alike. */
  lemma SchemaDoesNotMatter(remote: Remote, other: Result<Schema>)
    requires remote.containerExists == Ok(true)
    ensures ContainerCalls(remote) == ContainerCalls(remote.(getSchema := other))
    ensures ContainerOutcome(remote) == ContainerOutcome(remote.(getSchema := other))
  {
  }

  /** The GridDB client object. */
  class Client {
    const config: Config

    constructor (config: Config)
      ensures this.config == config
    {
      this.config := config;
    }
  }

  const GENERATION_TIMESTAMP_COLUMN := Name(GenerationTimestamp)
  const DESC := Ascii("DESC")
  const ZONE_FILTER := Ascii("zone = ?")
  const DEFAULT_LIMIT: real := 100.0
  const DEFAULT_ZONE_LIMIT: real := 50.0

  /** The module state of griddb.ts: the configuration, the lazily created
      `griddbClient`, and (as a log) every request sent through it. */
  class GridDbModule {
    const config: Config
    var griddbClient: Client?
    var issued: seq<ClientCall>

    constructor (config: Config)
      ensures this.config == config && griddbClient == null && issued == []
    {
      this.config := config;
      griddbClient := null;
      issued := [];
    }

    /** After a call that went through `getGridDBClient()`: the client that was
        there before is kept, or, if there was none, a new one built from the
        configuration is in place. */
    ghost predicate KeptOrCreated(before: Client?)
      reads this
    {
      && griddbClient != null
      && (before != null ==> griddbClient == before)
      && (before == null ==> griddbClient.config == config)
    }

    /** `getGridDBClient()`: the first call creates the client, every later
        call returns that same object. */
    method GetGridDBClient() returns (client: Client)
      modifies this
      ensures old(griddbClient) == null ==> fresh(client) && client.config == config
      ensures old(griddbClient) != null ==> client == old(griddbClient)
      ensures griddbClient == client && issued == old(issued)
    {
      if griddbClient == null {
        griddbClient := new Client(config);
      }
      client := griddbClient;
    }

    /** `createContainerIfNotExists(client)`. */
    method CreateContainerIfNotExists(client: Client, remote: Remote) returns (r: Result<()>)
      modifies this
      ensures issued == old(issued) + ContainerCalls(remote) && r == ContainerOutcome(remote)
      ensures griddbClient == old(griddbClient)
    {
      issued := issued + [ContainerExists(CONTAINER_NAME)];
      var found := remote.containerExists;
      if found.Err? {
        return Err(found.error);
      }
      if found.value {
        // the schema is read and a drifted id type logged; the result is the same
        issued := issued + [GetSchema(CONTAINER_NAME)];
        return Ok(());
      }
      var columns := COLUMNS;
      var containerOptions := ContainerOptions(CONTAINER_NAME, columns, Ascii("COLLECTION"), true);
      issued := issued + [CreateContainer(containerOptions)];
      r := remote.createContainer;
    }

    /** `initGridDB()`: the client, then the container rule; failures are
        rethrown. */
    method InitGridDB(remote: Remote) returns (r: Result<()>)
      modifies this
      ensures issued == old(issued) + ContainerCalls(remote) && r == ContainerOutcome(remote)
      ensures KeptOrCreated(old(griddbClient))
      ensures old(griddbClient) == null ==> fresh(griddbClient)
    {
      var client := GetGridDBClient();
      r := CreateContainerIfNotExists(client, remote);
    }

    /** `initGridDBOnStartup()`: nothing at all when unconfigured; otherwise
        the initialisation, whose failure is swallowed. It never fails. */
    method InitGridDBOnStartup(remote: Remote)
      modifies this
      ensures !IsConfigured(config) ==> unchanged(this)
      ensures IsConfigured(config) ==> issued == old(issued) + ContainerCalls(remote)
      ensures IsConfigured(config) ==> KeptOrCreated(old(griddbClient))
      ensures IsConfigured(config) && old(griddbClient) == null ==> fresh(griddbClient)
    {
      if !IsConfigured(config) {
        return;
      }
      var _ := InitGridDB(remote);
    }

    /** `saveMusicGeneration(record)` with the clock reading `nowMs` and the
        random component `random`: a no-op when unconfigured; otherwise the
        initialisation, then one insert of the record's row under a fresh id. */
    method SaveMusicGeneration(record: MusicGenerationRecord, nowMs: nat, random: int,
                               parseDate: JsString -> Option<int>, remote: Remote)
      returns (r: Result<()>)
      requires 0 <= random < 1000
      modifies this
      ensures !IsConfigured(config) ==> r == Ok(()) && unchanged(this)
      ensures IsConfigured(config) ==> KeptOrCreated(old(griddbClient))
      ensures IsConfigured(config) && old(griddbClient) == null ==> fresh(griddbClient)
      ensures IsConfigured(config) && ContainerOutcome(remote).Err? ==>
        r == ContainerOutcome(remote) && issued == old(issued) + ContainerCalls(remote)
      ensures IsConfigured(config) && ContainerOutcome(remote).Ok? ==>
        && r == remote.insert
        && issued == old(issued) + ContainerCalls(remote)
                     + [Insert(CONTAINER_NAME, InsertData(record, MakeId(nowMs, random), parseDate))]
    {
      if !IsConfigured(config) {
        return Ok(());
      }
      var init := InitGridDB(remote);
      if init.Err? {
        return init;
      }
      var client := GetGridDBClient();
      var timeComponent := nowMs % 1_000_000;
      var randomComponent := random;
      var id := timeComponent * 1000 + randomComponent;
      assert id == MakeId(nowMs, random);
      var data := InsertData(record, id, parseDate);
      issued := issued + [Insert(CONTAINER_NAME, data)];
      r := remote.insert;
    }

    /** `getMusicGenerations(limit)`: `[]` without touching anything when
        unconfigured; otherwise the initialisation, one select for the newest
        records (100 unless a limit is given), mapped one record per row. */
    method GetMusicGenerations(limit: Option<real>, remote: Remote) returns (r: Result<seq<JsValue>>)
      modifies this
      ensures !IsConfigured(config) ==> r == Ok([]) && unchanged(this)
      ensures IsConfigured(config) ==> KeptOrCreated(old(griddbClient))
      ensures IsConfigured(config) && old(griddbClient) == null ==> fresh(griddbClient)
      ensures IsConfigured(config) && ContainerOutcome(remote).Err? ==>
        r == Err(ContainerOutcome(remote).error) && issued == old(issued) + ContainerCalls(remote)
      ensures IsConfigured(config) && ContainerOutcome(remote).Ok? ==>
        && issued == old(issued) + ContainerCalls(remote)
                     + [Select(SelectQuery(CONTAINER_NAME, None, [], GENERATION_TIMESTAMP_COLUMN, DESC,
                                           if limit.Some? then limit.value else DEFAULT_LIMIT))]
        && r == match remote.select case Err(e) => Err(e) case Ok(rows) => Ok(RowsToRecords(rows))
    {
      if !IsConfigured(config) {
        return Ok([]);
      }
      var init := InitGridDB(remote);
      if init.Err? {
        return Err(init.error);
      }
      var client := GetGridDBClient();
      var n := if limit.Some? then limit.value else DEFAULT_LIMIT;
      issued := issued + [Select(SelectQuery(CONTAINER_NAME, None, [], GENERATION_TIMESTAMP_COLUMN, DESC, n))];
      var results := remote.select;
      if results.Err? {
        return Err(results.error);
      }
      r := Ok(RowsToRecords(results.value));
    }

    /** `getMusicGenerationsByZone(zone, limit)`: as GetMusicGenerations, with
        the zone bound to the filter and 50 as the default limit. */
    method GetMusicGenerationsByZone(zone: JsString, limit: Option<real>, remote: Remote) returns (r: Result<seq<JsValue>>)
      modifies this
      ensures !IsConfigured(config) ==> r == Ok([]) && unchanged(this)
      ensures IsConfigured(config) ==> KeptOrCreated(old(griddbClient))
      ensures IsConfigured(config) && old(griddbClient) == null ==> fresh(griddbClient)
      ensures IsConfigured(config) && ContainerOutcome(remote).Err? ==>
        r == Err(ContainerOutcome(remote).error) && issued == old(issued) + ContainerCalls(remote)
      ensures IsConfigured(config) && ContainerOutcome(remote).Ok? ==>
        && issued == old(issued) + ContainerCalls(remote)
                     + [Select(SelectQuery(CONTAINER_NAME, Some(ZONE_FILTER), [zone], GENERATION_TIMESTAMP_COLUMN, DESC,
                                           if limit.Some? then limit.value else DEFAULT_ZONE_LIMIT))]
        && r == match remote.select case Err(e) => Err(e) case Ok(rows) => Ok(RowsToRecords(rows))
    {
      if !IsConfigured(config) {
        return Ok([]);
      }
      var init := InitGridDB(remote);
      if init.Err? {
        return Err(init.error);
      }
      var client := GetGridDBClient();
      var n := if limit.Some? then limit.value else DEFAULT_ZONE_LIMIT;
      issued := issued + [Select(SelectQuery(CONTAINER_NAME, Some(ZONE_FILTER), [zone], GENERATION_TIMESTAMP_COLUMN, DESC, n))];
      var results := remote.select;
      if results.Err? {
        return Err(results.error);
      }
      r := Ok(RowsToRecords(results.value));
    }
  }
}

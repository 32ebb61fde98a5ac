/** The Express server (backend/src/index.ts), handler by handler: the
    request checks each route makes before it touches the database or an
    outside service, and the values it computes from what those return.
    Database queries, password hashing, token signing and the calls to
    the language model and the weather service are inputs: each handler
    takes their outcome as a parameter. */
module Backend {
  import opened Wrappers
  import opened Records
  import opened Folds
  import opened Grouping
  import opened Strings
  import opened Numeric

  /** An error reply: the status code and the `error` field of the body. */
  datatype HttpError = HttpError(status: int, message: string)

  /** A request field or environment variable JavaScript treats as false:
      absent or empty. */
  predicate Falsy(s: Option<string>)
  {
    s.None? || s.value == ""
  }

  // ---------------------------------------------------------------------
  // sign-up and sign-in

  datatype Credentials = Credentials(username: Option<string>, password: Option<string>)

  /** `POST /auth/register`, up to the creation of the account: 400 without
      a name or password, 409 when the name is taken, otherwise the name
      the account is created under. */
  function RegisterReply(c: Credentials, taken: bool): (r: Result<string, HttpError>)
    ensures r.Err? <==> Falsy(c.username) || Falsy(c.password) || taken
    ensures (Falsy(c.username) || Falsy(c.password)) ==> r == Err(HttpError(400, "username and password required"))
    ensures !Falsy(c.username) && !Falsy(c.password) && taken ==> r == Err(HttpError(409, "username already exists"))
    ensures r.Ok? ==> Some(r.value) == c.username
  {
    if Falsy(c.username) || Falsy(c.password) then Err(HttpError(400, "username and password required"))
    else if taken then Err(HttpError(409, "username already exists"))
    else Ok(c.username.value)
  }

  /** `POST /auth/login`, given whether the name is known and whether the
      password hash matches: the name the token is issued for. */
  function LoginReply(c: Credentials, known: bool, passwordMatches: bool): (r: Result<string, HttpError>)
    ensures r.Ok? <==> !Falsy(c.username) && !Falsy(c.password) && known && passwordMatches
    ensures r.Ok? ==> Some(r.value) == c.username
    ensures (Falsy(c.username) || Falsy(c.password)) ==> r == Err(HttpError(400, "username and password required"))
  {
    if Falsy(c.username) || Falsy(c.password) then Err(HttpError(400, "username and password required"))
    else if !known then Err(HttpError(401, "invalid credentials"))
    else if !passwordMatches then Err(HttpError(401, "invalid credentials"))
    else Ok(c.username.value)
  }

  /** An unknown name and a wrong password get the same reply, so the reply
      does not tell which names exist. */
  lemma LoginHidesUnknownNames(c: Credentials, passwordMatches: bool)
    requires !Falsy(c.username) && !Falsy(c.password)
    ensures LoginReply(c, false, passwordMatches) == LoginReply(c, true, false)
    ensures LoginReply(c, false, passwordMatches) == Err(HttpError(401, "invalid credentials"))
  {
  }

  // ---------------------------------------------------------------------
  // requireAuth

  const BearerPrefix := "Bearer "

  /** The token of an `Authorization` header: 401 "missing token" unless
      the header is there and starts with "Bearer ", otherwise the header
      without its first seven characters. */
  function BearerToken(header: Option<string>): (r: Result<string, HttpError>)
    ensures r.Err? <==> header.None? || !StartsWith(header.value, BearerPrefix)
    ensures r.Err? ==> r.error == HttpError(401, "missing token")
    ensures r.Ok? ==> header.value == BearerPrefix + r.value
  {
    if header.None? || !StartsWith(header.value, BearerPrefix) then Err(HttpError(401, "missing token"))
    else
      assert header.value == header.value[..7] + header.value[7..];
      Ok(header.value[7..])
  }

  /** The header the client sends gives back its token. */
  lemma BearerRoundTrip(token: string)
    ensures BearerToken(Some(BearerPrefix + token)) == Ok(token)
  {
    assert (BearerPrefix + token)[..|BearerPrefix|] == BearerPrefix;
    assert (BearerPrefix + token)[7..] == token;
  }

  /** `requireAuth`: the claims of a valid token; `verify` stands for the
      JWT check and gives the user id a token carries. */
  function RequireAuth(header: Option<string>, verify: string -> Option<string>): (r: Result<string, HttpError>)
    ensures BearerToken(header).Err? ==> r == Err(HttpError(401, "missing token"))
    ensures BearerToken(header).Ok? && verify(BearerToken(header).value).None? ==> r == Err(HttpError(401, "invalid token"))
    ensures r.Ok? ==> exists t :: header == Some(BearerPrefix + t) && verify(t) == Some(r.value)
  {
    match BearerToken(header)
    case Err(e) => Err(e)
    case Ok(token) =>
      match verify(token)
      case None => Err(HttpError(401, "invalid token"))
      case Some(user) => Ok(user)
  }

  // ---------------------------------------------------------------------
  // POST /records

  /** `{ ...payload, userId: req.user.id }`: the stored fields are the
      payload's, with the owner set to the signed-in user. */
  function OwnedPayload(payload: map<string, string>, userId: string): (stored: map<string, string>)
    ensures "userId" in stored && stored["userId"] == userId
    ensures forall k :: k != "userId" ==> (k in stored <==> k in payload)
    ensures forall k :: k != "userId" && k in payload ==> stored[k] == payload[k]
  {
    payload["userId" := userId]
  }

  /** A client cannot file a record under someone else's id. */
  lemma OwnerCannotBeSpoofed(payload: map<string, string>, claimed: string, userId: string)
    ensures OwnedPayload(payload["userId" := claimed], userId) == OwnedPayload(payload, userId)
  {
  }

  // ---------------------------------------------------------------------
  // POST /forecast

  datatype MenuEntry = MenuEntry(id: string, name: string, costPerUnit: int)

  datatype ForecastRequest = ForecastRequest(history: Option<seq<DailyRecord>>, menu: Option<seq<MenuEntry>>)

  /** The facts of one record the prompt lists. */
  datatype SnippetLine = SnippetLine(date: string, itemName: string, sold: int, prepared: int)

  function LineOf(r: DailyRecord): SnippetLine
  {
    SnippetLine(r.date, r.itemName, r.sold, r.prepared)
  }

  const SnippetRecords := 35

  /** `history.slice(-35).map(line)`: the last 35 records, in order. */
  function Snippet(history: seq<DailyRecord>): (lines: seq<SnippetLine>)
    ensures |lines| == if |history| < SnippetRecords then |history| else SnippetRecords
    ensures forall i :: 0 <= i < |lines| ==> lines[i] == LineOf(history[|history| - |lines| + i])
  {
    var recent := TakeLast(history, SnippetRecords);
    seq(|recent|, i requires 0 <= i < |recent| => LineOf(recent[i]))
  }

  /** The checks before the model is asked: 400 without history or menu,
      then 500 without an API key; otherwise the prompt's history lines. */
  function ForecastInput(req: ForecastRequest, apiKey: Option<string>): (r: Result<seq<SnippetLine>, HttpError>)
    ensures (req.history.None? || req.menu.None?) ==> r == Err(HttpError(400, "history and menu are required"))
    ensures req.history.Some? && req.menu.Some? && Falsy(apiKey) ==> r == Err(HttpError(500, "Gemini API key not configured"))
    ensures r.Ok? <==> req.history.Some? && req.menu.Some? && !Falsy(apiKey)
    ensures r.Ok? ==> r.value == Snippet(req.history.value)
  {
    if req.history.None? || req.menu.None? then Err(HttpError(400, "history and menu are required"))
    else if Falsy(apiKey) then Err(HttpError(500, "Gemini API key not configured"))
    else Ok(Snippet(req.history.value))
  }

  /** A longer history still gives only its last 35 records to the
      prompt. */
  lemma SnippetOfLongHistory(older: seq<DailyRecord>, recent: seq<DailyRecord>)
    requires |recent| == SnippetRecords
    ensures Snippet(older + recent) == Snippet(recent)
  {
    var s, t := Snippet(older + recent), Snippet(recent);
    assert |s| == |t|;
    forall i | 0 <= i < |s|
      ensures s[i] == t[i]
    {
      assert (older + recent)[|older + recent| - |s| + i] == recent[i];
    }
  }

  datatype Prediction = Prediction(itemId: string, itemName: string, predictedDemand: int, confidence: real, reasoning: string)

  /** A menu entry whose name equals the given one, ignoring case. */
  function SameName(name: string): MenuEntry -> bool
  {
    (m: MenuEntry) => ToLower(m.name) == ToLower(name)
  }

  /** One prediction after `{ ...p, itemId: match?.id || p.itemId }`: the id
      of the first menu entry of the same name, when it has a non-empty
      id; every other field as the model sent it. */
  function Reconcile(p: Prediction, menu: seq<MenuEntry>): (q: Prediction)
    ensures q == p.(itemId := q.itemId)
    ensures var m := Find(menu, SameName(p.itemName));
      q.itemId == if m.Some? && m.value.id != "" then m.value.id else p.itemId
  {
    var m := Find(menu, SameName(p.itemName));
    p.(itemId := if m.Some? && m.value.id != "" then m.value.id else p.itemId)
  }

  /** The prediction takes the id of the first entry with its name. */
  lemma ReconcileFirstMatch(p: Prediction, menu: seq<MenuEntry>, k: int)
    requires 0 <= k < |menu| && ToLower(menu[k].name) == ToLower(p.itemName) && menu[k].id != ""
    requires forall j :: 0 <= j < k ==> ToLower(menu[j].name) != ToLower(p.itemName)
    ensures Reconcile(p, menu).itemId == menu[k].id
  {
    FindFirst(menu, SameName(p.itemName), k);
  }

  /** A name not on the menu keeps the id the model gave. */
  lemma ReconcileUnknownName(p: Prediction, menu: seq<MenuEntry>)
    requires forall j :: 0 <= j < |menu| ==> ToLower(menu[j].name) != ToLower(p.itemName)
    ensures Reconcile(p, menu) == p
  {
  }

  /** Reconciling twice changes nothing more. */
  lemma ReconcileIdempotent(p: Prediction, menu: seq<MenuEntry>)
    ensures Reconcile(Reconcile(p, menu), menu) == Reconcile(p, menu)
  {
  }

  /** `result.predictions.map(reconcile)` */
  function ReconcileAll(ps: seq<Prediction>, menu: seq<MenuEntry>): (qs: seq<Prediction>)
    ensures |qs| == |ps|
    ensures forall i :: 0 <= i < |ps| ==> qs[i] == Reconcile(ps[i], menu)
  {
    seq(|ps|, i requires 0 <= i < |ps| => Reconcile(ps[i], menu))
  }

  /** What came back from the language model. */
  datatype ModelReply =
    | ModelFailed(status: int)
    | NoText
    | Unparseable
    | Parsed(predictions: Option<seq<Prediction>>, overallInsight: string, savingsOpportunity: int)

  datatype Forecast = Forecast(predictions: seq<Prediction>, overallInsight: string, savingsOpportunity: int)

  /** The reply `/forecast` sends once the model has answered. */
  function ForecastReply(menu: seq<MenuEntry>, reply: ModelReply): (r: Result<Forecast, HttpError>)
    ensures reply.ModelFailed? ==> r.Err? && r.error.status == reply.status
    ensures reply == ModelFailed(429) ==> r == Err(HttpError(429, "Gemini API Quota Exceeded"))
    ensures reply.NoText? || reply.Unparseable? ==> r.Err? && r.error.status == 500
    ensures r.Ok? <==> reply.Parsed? && reply.predictions.Some?
    ensures r.Ok? ==>
      && r.value.predictions == ReconcileAll(reply.predictions.value, menu)
      && r.value.overallInsight == reply.overallInsight
      && r.value.savingsOpportunity == reply.savingsOpportunity
  {
    match reply
    case ModelFailed(status) =>
      if status == 429 then Err(HttpError(429, "Gemini API Quota Exceeded"))
      else Err(HttpError(status, "Failed to generate forecast from Gemini"))
    case NoText => Err(HttpError(500, "Invalid response from Gemini API"))
    case Unparseable => Err(HttpError(500, "Failed to parse forecast response"))
    case Parsed(predictions, insight, savings) =>
      if predictions.None? then Err(HttpError(500, "Failed to generate forecast"))
      else Ok(Forecast(ReconcileAll(predictions.value, menu), insight, savings))
  }

  /** Reconciling keeps every prediction, in order, with only its id
      possibly changed, and every name on the menu with an id gets a menu
      id. */
  lemma ForecastKeepsPredictions(menu: seq<MenuEntry>, reply: ModelReply, i: int)
    requires ForecastReply(menu, reply).Ok?
    requires 0 <= i < |reply.predictions.value|
    ensures var f := ForecastReply(menu, reply).value;
      |f.predictions| == |reply.predictions.value|
      && f.predictions[i].itemName == reply.predictions.value[i].itemName
      && f.predictions[i].predictedDemand == reply.predictions.value[i].predictedDemand
      && f.predictions[i].confidence == reply.predictions.value[i].confidence
      && f.predictions[i].reasoning == reply.predictions.value[i].reasoning
      && ((exists k :: 0 <= k < |menu| && SameName(reply.predictions.value[i].itemName)(menu[k]) && menu[k].id != ""
            && forall j :: 0 <= j < k ==> !SameName(reply.predictions.value[i].itemName)(menu[j]))
          ==> exists k :: 0 <= k < |menu| && f.predictions[i].itemId == menu[k].id)
  {
    var p := reply.predictions.value[i];
    var f := ForecastReply(menu, reply).value;
    if k :| (0 <= k < |menu| && SameName(p.itemName)(menu[k]) && menu[k].id != ""
        && forall j :: 0 <= j < k ==> !SameName(p.itemName)(menu[j])) {
      ReconcileFirstMatch(p, menu, k);
      assert f.predictions[i].itemId == menu[k].id;
    }
  }

  // ---------------------------------------------------------------------
  // GET /weather

  /** The query's coordinate, or the default (central Delhi). */
  function CoordinateOr(query: Option<string>, default: string): (c: string)
    ensures Falsy(query) ==> c == default
    ensures !Falsy(query) ==> Some(c) == query
  {
    if Falsy(query) then default else query.value
  }

  const DefaultLatitude := "28.6139"
  const DefaultLongitude := "77.2090"

  /** The codes the description table lists. */
  const KnownCodes: set<int> := {0, 1, 2, 3, 45, 48, 51, 53, 55, 61, 63, 65, 71, 73, 75, 80, 81, 82, 95, 96, 99}

  /** `weatherDescriptions[code] || 'Unknown'` */
  function Description(code: int): (d: string)
    ensures d == "Unknown" <==> code !in KnownCodes
  {
    match code
    case 0 => "Clear sky"
    case 1 => "Mainly clear"
    case 2 => "Partly cloudy"
    case 3 => "Overcast"
    case 45 => "Foggy"
    case 48 => "Depositing rime fog"
    case 51 => "Light drizzle"
    case 53 => "Moderate drizzle"
    case 55 => "Dense drizzle"
    case 61 => "Slight rain"
    case 63 => "Moderate rain"
    case 65 => "Heavy rain"
    case 71 => "Slight snow"
    case 73 => "Moderate snow"
    case 75 => "Heavy snow"
    case 80 => "Slight rain showers"
    case 81 => "Moderate rain showers"
    case 82 => "Violent rain showers"
    case 95 => "Thunderstorm"
    case 96 => "Thunderstorm with hail"
    case 99 => "Thunderstorm with heavy hail"
    case _ => "Unknown"
  }

  /** `x || 0` for a code: a missing code reads as 0. */
  function CodeOrZero(code: Option<int>): (c: int)
    ensures code.Some? ==> c == code.value
    ensures code.None? ==> c == 0
  {
    if code.Some? then code.value else 0
  }

  /** `xs?.[1]`: tomorrow's entry of a daily series. */
  function Tomorrow<T>(xs: Option<seq<T>>): (r: Option<T>)
    ensures r.Some? <==> xs.Some? && |xs.value| > 1
    ensures r.Some? ==> r.value == xs.value[1]
  {
    if xs.Some? && |xs.value| > 1 then Some(xs.value[1]) else None
  }

  /** The fields of the forecast service's answer the handler reads. */
  datatype MeteoData = MeteoData(
    temperature: Option<real>,
    humidity: Option<real>,
    code: Option<int>,
    dailyMax: Option<seq<real>>,
    dailyMin: Option<seq<real>>,
    dailyCode: Option<seq<int>>,
    dailyRainChance: Option<seq<real>>)

  datatype Current = Current(temperature: Option<real>, humidity: Option<real>, description: string, code: int)
  datatype Day = Day(tempMax: Option<real>, tempMin: Option<real>, precipitationChance: Option<real>, description: string, code: int)
  datatype WeatherReport = WeatherReport(current: Current, tomorrow: Day)

  /** The body `/weather` sends: every description is that of the code
      sent beside it, and tomorrow is the second day of each series. */
  function WeatherReportOf(data: MeteoData): (w: WeatherReport)
    ensures w.current.code == CodeOrZero(data.code) && w.current.description == Description(w.current.code)
    ensures w.tomorrow.code == CodeOrZero(Tomorrow(data.dailyCode)) && w.tomorrow.description == Description(w.tomorrow.code)
    ensures w.current.temperature == data.temperature && w.current.humidity == data.humidity
    ensures w.tomorrow.tempMax == Tomorrow(data.dailyMax) && w.tomorrow.tempMin == Tomorrow(data.dailyMin)
    ensures w.tomorrow.precipitationChance == Tomorrow(data.dailyRainChance)
  {
    var today := CodeOrZero(data.code);
    var next := CodeOrZero(Tomorrow(data.dailyCode));
    WeatherReport(
      Current(data.temperature, data.humidity, Description(today), today),
      Day(Tomorrow(data.dailyMax), Tomorrow(data.dailyMin), Tomorrow(data.dailyRainChance), Description(next), next))
  }

  /** A missing code is reported as a clear sky, never as unknown. */
  lemma MissingCodeReadsClear(data: MeteoData)
    requires data.code.None?
    ensures WeatherReportOf(data).current == Current(data.temperature, data.humidity, "Clear sky", 0)
  {
  }

  /** A one-day series has no tomorrow: its code reads as 0 as well. */
  lemma ShortSeriesReadsClear(data: MeteoData)
    requires data.dailyCode.Some? && |data.dailyCode.value| <= 1
    ensures WeatherReportOf(data).tomorrow.code == 0 && WeatherReportOf(data).tomorrow.description == "Clear sky"
  {
  }

  // ---------------------------------------------------------------------
  // POST /chat

  /** A stored record as the chat summary reads it; a missing number counts
      as 0 (`r.waste || 0`). */
  datatype StoredRecord = StoredRecord(itemName: string, waste: Option<int>, sold: Option<int>, loss: Option<int>)

  function OrZero(x: Option<int>): int
  {
    if x.Some? then x.value else 0
  }

  function WasteOf(r: StoredRecord): int { OrZero(r.waste) }
  function SoldOf(r: StoredRecord): int { OrZero(r.sold) }
  function LossOf(r: StoredRecord): int { OrZero(r.loss) }
  function NameOf(r: StoredRecord): string { r.itemName }
  function One(r: StoredRecord): int { 1 }

  /** The checks before the records are read: 400 without a message, 500
      without an API key. */
  function ChatInput(message: Option<string>, apiKey: Option<string>): (r: Result<string, HttpError>)
    ensures Falsy(message) ==> r == Err(HttpError(400, "message is required"))
    ensures !Falsy(message) && Falsy(apiKey) ==> r == Err(HttpError(500, "Gemini API key not configured"))
    ensures r.Ok? <==> !Falsy(message) && !Falsy(apiKey)
    ensures r.Ok? ==> Some(r.value) == message
  {
    if Falsy(message) then Err(HttpError(400, "message is required"))
    else if Falsy(apiKey) then Err(HttpError(500, "Gemini API key not configured"))
    else Ok(message.value)
  }

  datatype ItemStat = ItemStat(waste: int, sold: int, count: int)

  const NoStat := ItemStat(0, 0, 0)

  function AddStat(s: ItemStat, r: StoredRecord): ItemStat
  {
    ItemStat(s.waste + WasteOf(r), s.sold + SoldOf(r), s.count + 1)
  }

  /** `itemStats`, keyed by item name in first-seen order. */
  function ItemStats(records: seq<StoredRecord>): Table<string, ItemStat>
  {
    Group(records, NameOf, NoStat, AddStat)
  }

  /** The `forEach` that fills `itemStats`. */
  method BuildItemStats(records: seq<StoredRecord>) returns (names: seq<string>, stats: map<string, ItemStat>)
    ensures Table(names, stats) == ItemStats(records)
    ensures WellFormed(Table(names, stats))
  {
    names, stats := [], map[];
    for i := 0 to |records|
      invariant Table(names, stats) == ItemStats(records[..i])
    {
      var r := records[i];
      if r.itemName !in stats {
        names := names + [r.itemName];
        stats := stats[r.itemName := NoStat];
      }
      var s := stats[r.itemName];
      stats := stats[r.itemName := ItemStat(s.waste + OrZero(r.waste), s.sold + OrZero(r.sold), s.count + 1)];
      assert records[..i + 1][..i] == records[..i];
    }
    assert records[..|records|] == records;
    GroupDistinct(records, NameOf, NoStat, AddStat);
  }

  /** An item's entry holds the waste and sold totals and the number of
      exactly the records with its name. */
  lemma ItemStatIsSums(records: seq<StoredRecord>, name: string)
    ensures var w := Where(records, KeyIs(NameOf, name));
      Lookup(ItemStats(records), name, NoStat) == ItemStat(Sum(w, WasteOf), Sum(w, SoldOf), |w|)
  {
    var w := Where(records, KeyIs(NameOf, name));
    GroupValue(records, NameOf, NoStat, AddStat, name);
    FoldComponent(w, NoStat, AddStat, (s: ItemStat) => s.waste, WasteOf);
    FoldComponent(w, NoStat, AddStat, (s: ItemStat) => s.sold, SoldOf);
    FoldComponent(w, NoStat, AddStat, (s: ItemStat) => s.count, One);
    SumOfOnes(w, One);
  }

  function EntryCount(e: (string, ItemStat)): int { e.1.count }
  function EntryWaste(e: (string, ItemStat)): int { e.1.waste }

  /** Every record is counted under exactly one item: the counts add up to
      the number of records, and the item wastes to the total waste. */
  lemma ItemStatsPartition(records: seq<StoredRecord>)
    ensures WellFormed(ItemStats(records))
    ensures Sum(Entries(ItemStats(records)), EntryCount) == |records|
    ensures Sum(Entries(ItemStats(records)), EntryWaste) == Sum(records, WasteOf)
  {
    GroupDistinct(records, NameOf, NoStat, AddStat);
    var t := ItemStats(records);
    forall k | k in t.values
      ensures EntryCount((k, t.values[k])) == KeyTotal(records, NameOf, One)(k)
      ensures EntryWaste((k, t.values[k])) == KeyTotal(records, NameOf, WasteOf)(k)
    {
      ItemStatIsSums(records, k);
      SumOfOnes(Where(records, KeyIs(NameOf, k)), One);
    }
    SumEntries(t, EntryCount, KeyTotal(records, NameOf, One));
    SumEntries(t, EntryWaste, KeyTotal(records, NameOf, WasteOf));
    GroupPartition(records, NameOf, NoStat, AddStat, One);
    GroupPartition(records, NameOf, NoStat, AddStat, WasteOf);
    SumOfOnes(records, One);
  }

  /** `avgWastePerDay`: the waste per record to a tenth, or 0 for no
      records. */
  function AvgWastePerDay(records: seq<StoredRecord>): real
  {
    if |records| > 0 then Fixed1(Sum(records, WasteOf) as real / |records| as real) else 0.0
  }

  /** With every record's waste between 0 and m, the average is too. */
  lemma AvgWasteBounds(records: seq<StoredRecord>, m: int)
    requires forall i :: 0 <= i < |records| ==> 0 <= WasteOf(records[i]) <= m
    ensures 0.0 <= AvgWastePerDay(records)
    ensures |records| > 0 ==> AvgWastePerDay(records) <= m as real
  {
    SumNonNegative(records, WasteOf);
    if |records| > 0 {
      var n := |records|;
      var total := Sum(records, WasteOf);
      SumBelow(records, WasteOf, m);
      var x := total as real / n as real;
      QuotientAtMost(total, n, m);
      FixedMonotone(x, m as real);
      RoundOfInteger(10 * m);
      assert m as real * 10.0 == (10 * m) as real;
    }
  }

  /** A whole total of at most n * m over n > 0 averages at most m. */
  lemma QuotientAtMost(total: int, n: int, m: int)
    requires n > 0 && total <= n * m
    ensures total as real / n as real <= m as real
  {
    var x := total as real / n as real;
    assert x * n as real == total as real;
    assert total as real <= n as real * m as real;
    assert (x - m as real) * n as real <= 0.0;
  }

  /** A sum of n terms none above m is at most n * m. */
  lemma {:induction false} SumBelow(xs: seq<StoredRecord>, f: StoredRecord -> int, m: int)
    requires forall i :: 0 <= i < |xs| ==> f(xs[i]) <= m
    ensures Sum(xs, f) <= |xs| * m
  {
    if xs != [] {
      SumBelow(xs[..|xs| - 1], f, m);
    }
  }

  /** The summary lists each item name once, and every record's name. */
  lemma ItemNamesDistinctAndComplete(records: seq<StoredRecord>)
    ensures WellFormed(ItemStats(records))
    ensures var items := Entries(ItemStats(records));
      (forall i, j :: 0 <= i < j < |items| ==> items[i].0 != items[j].0)
      && (forall k :: 0 <= k < |records| ==> exists i :: 0 <= i < |items| && items[i].0 == records[k].itemName)
  {
    GroupDistinct(records, NameOf, NoStat, AddStat);
    var t := ItemStats(records);
    var items := Entries(t);
    forall k | 0 <= k < |records|
      ensures exists i :: 0 <= i < |items| && items[i].0 == records[k].itemName
    {
      GroupKeyPresent(records, NameOf, NoStat, AddStat, k);
      assert NameOf(records[k]) in t.keys;
      var i :| 0 <= i < |t.keys| && t.keys[i] == NameOf(records[k]);
      assert items[i].0 == records[k].itemName;
    }
  }

  /** Each per-item entry holds the sums of its own records, of which there
      is at least one. */
  lemma ItemEntriesAreSums(records: seq<StoredRecord>)
    ensures WellFormed(ItemStats(records))
    ensures var items := Entries(ItemStats(records));
      forall i :: 0 <= i < |items| ==>
        var w := Where(records, KeyIs(NameOf, items[i].0));
        items[i].1 == ItemStat(Sum(w, WasteOf), Sum(w, SoldOf), |w|) && items[i].1.count > 0
  {
    GroupKeys(records, NameOf, NoStat, AddStat);
    var items := Entries(ItemStats(records));
    forall i | 0 <= i < |items|
      ensures var w := Where(records, KeyIs(NameOf, items[i].0));
        items[i].1 == ItemStat(Sum(w, WasteOf), Sum(w, SoldOf), |w|) && items[i].1.count > 0
    {
      var name := items[i].0;
      ItemStatIsSums(records, name);
      GroupKeyWitness(records, NameOf, NoStat, AddStat, name);
      var j :| 0 <= j < |records| && NameOf(records[j]) == name;
      WhereMembers(records, KeyIs(NameOf, name));
      assert records[j] in Where(records, KeyIs(NameOf, name));
    }
  }

  /** The figures the chat prompt is given about the records. */
  datatype ChatSummary = ChatSummary(
    totalRecords: int,
    totalSold: int,
    totalWaste: int,
    totalLoss: int,
    avgWastePerDay: real,
    items: seq<(string, ItemStat)>)

  /** The prompt's figures: the record count, the three totals (a missing
      number as 0), the average, and one entry per distinct item name, each
      holding exactly that name's records. */
  function Summarize(records: seq<StoredRecord>): (s: ChatSummary)
    ensures s.totalRecords == |records|
    ensures s.totalWaste == Sum(records, WasteOf) && s.totalSold == Sum(records, SoldOf)
      && s.totalLoss == Sum(records, LossOf)
    ensures s.avgWastePerDay == AvgWastePerDay(records)
    ensures Sum(s.items, EntryCount) == s.totalRecords && Sum(s.items, EntryWaste) == s.totalWaste
    ensures forall i :: 0 <= i < |s.items| ==>
      var w := Where(records, KeyIs(NameOf, s.items[i].0));
      s.items[i].1 == ItemStat(Sum(w, WasteOf), Sum(w, SoldOf), |w|) && s.items[i].1.count > 0
    ensures forall i, j :: 0 <= i < j < |s.items| ==> s.items[i].0 != s.items[j].0
    ensures forall k :: 0 <= k < |records| ==> exists i :: 0 <= i < |s.items| && s.items[i].0 == records[k].itemName
  {
    ItemStatsPartition(records);
    ItemEntriesAreSums(records);
    ItemNamesDistinctAndComplete(records);
    var items := Entries(ItemStats(records));
    ChatSummary(|records|, Sum(records, SoldOf), Sum(records, WasteOf), Sum(records, LossOf), AvgWastePerDay(records), items)
  }
}

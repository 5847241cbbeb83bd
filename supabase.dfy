/**
 * The remote persistence adapter. The hosted backend is an oracle: each operation takes the
 * reply the backend gave (rows, or an error message) and yields the request it sent together
 * with what the operation returns to its caller. When the adapter is not configured there is
 * no client, and each operation falls back without sending anything.
 */
module Supabase {
  import opened Wrappers
  import opened Types
  import opened Text
  import opened Stats

  // ----- Configuration -----

  const UrlVar := "VITE_SUPABASE_URL"
  const KeyVar := "VITE_SUPABASE_ANON_KEY"
  const DefaultUrl := "https://yoxxxynkhzefkooywvqw.supabase.co"
  const DefaultKey := "sb_publishable_1wUGxlogH5gOPFulEL1hMA_bv8d9vvd"
  /** The marker the configuration template uses for values still to be filled in. */
  const Placeholder := "COLE_SUA"

  /** The build environment: missing, throwing when read, or a table of variables. */
  datatype Env = NoEnv | Unreadable | Vars(vars: map<string, string>)

  /** The environment holds a non-empty (truthy) value for `key`. */
  predicate IsSet(env: Env, key: string) {
    env.Vars? && key in env.vars && env.vars[key] != ""
  }

  /** `getEnvVar`: the environment's value when present and non-empty, otherwise the default. */
  function GetEnvVar(env: Env, key: string, default: string): (r: string)
    ensures IsSet(env, key) ==> r == env.vars[key]
    ensures !IsSet(env, key) ==> r == default
  {
    match env
    case NoEnv => default
    case Unreadable => default
    case Vars(vars) => if key in vars && vars[key] != "" then vars[key] else default
  }

  /** `isConfigured`: both settings non-empty and neither containing the placeholder anywhere. */
  function IsConfigured(url: string, key: string): (r: bool)
    ensures r <==> url != "" && key != ""
                   && !(exists i :: OccursAt(url, Placeholder, i))
                   && !(exists i :: OccursAt(key, Placeholder, i))
  {
    ContainsAt(url, Placeholder);
    ContainsAt(key, Placeholder);
    url != "" && key != "" && !Contains(url, Placeholder) && !Contains(key, Placeholder)
  }

  /** The settings the module reads at start-up. */
  function ConfiguredUrl(env: Env): string { GetEnvVar(env, UrlVar, DefaultUrl) }
  function ConfiguredKey(env: Env): string { GetEnvVar(env, KeyVar, DefaultKey) }

  lemma DefaultUrlIsNotPlaceholder()
    ensures !Contains(DefaultUrl, Placeholder)
  {
    assert Placeholder[0] == 'C' && 'C' !in DefaultUrl;
    NotContainsWithoutChar(DefaultUrl, Placeholder, 0);
  }

  lemma DefaultKeyLacksPlaceholderStart()
    ensures 'C' !in DefaultKey
  {
    var head, tail := "sb_publishable_1wUGx", "logH5gOPFulEL1hMA_bv8d9vvd";
    assert DefaultKey == head + tail && 'C' !in head && 'C' !in tail;
  }

  lemma DefaultKeyIsNotPlaceholder()
    ensures !Contains(DefaultKey, Placeholder)
  {
    DefaultKeyLacksPlaceholderStart();
    assert |Placeholder| == 8 && Placeholder[0] == 'C';
    NotContainsWithoutChar(DefaultKey, Placeholder, 0);
  }

  /**
   * With neither variable set, the built-in defaults are used, and they are not placeholders:
   * the adapter counts as configured.
   */
  lemma DefaultsAreConfigured(env: Env)
    requires !IsSet(env, UrlVar) && !IsSet(env, KeyVar)
    ensures IsConfigured(ConfiguredUrl(env), ConfiguredKey(env))
  {
    assert ConfiguredUrl(env) == DefaultUrl && ConfiguredKey(env) == DefaultKey;
    DefaultUrlIsNotPlaceholder();
    DefaultKeyIsNotPlaceholder();
  }

  /** The module-level client: present exactly when the configuration is accepted. */
  datatype Client = NoClient | Connected(url: string, key: string)

  function ClientFor(env: Env): (c: Client)
    ensures c.Connected? <==> IsConfigured(ConfiguredUrl(env), ConfiguredKey(env))
  {
    var url, key := ConfiguredUrl(env), ConfiguredKey(env);
    if IsConfigured(url, key) then Connected(url, key) else NoClient
  }

  // ----- Authentication -----

  /** The signed-in principal: an id, an optional e-mail and the sign-up metadata's company name. */
  datatype User = User(id: string, email: Option<string>, companyName: Option<string>)

  /** The message thrown by the operations that need a client. */
  const NotConfiguredMessage := "Supabase não configurado"

  /** `getSession` and `getUser`: nothing without a client, otherwise the backend's answer. */
  function Lookup<T>(client: Client, answer: Option<T>): (r: Option<T>)
    ensures client.NoClient? ==> r.None?
    ensures client.Connected? ==> r == answer
  {
    if client.NoClient? then None else answer
  }

  /**
   * `signIn`, `signUp` and `resetPassword`: the error message the caller ends up with, `None` on
   * success. Without a client the call throws before anything is sent.
   */
  function AuthAction(client: Client, answer: Option<string>): (r: Option<string>)
    ensures client.NoClient? ==> r == Some(NotConfiguredMessage)
    ensures client.Connected? ==> r == answer
  {
    if client.NoClient? then Some(NotConfiguredMessage) else answer
  }

  // ----- Row <-> domain mapping -----

  /** A row of the `service_orders` table; the fields carry the table's column names. */
  datatype OrderRow = OrderRow(
    id: int,
    client_name: string,
    client_phone: string,
    description: string,
    open_date: string,
    close_date: Option<string>,
    value: Amount,
    status: OrderStatus,
    payment_method: PaymentMethod,
    observations: string)

  /** The columns written by `create` and `update` (everything but `id` and the owner). */
  datatype Columns = Columns(
    client_name: string,
    client_phone: string,
    description: string,
    open_date: string,
    close_date: Option<string>,
    value: Amount,
    status: OrderStatus,
    payment_method: PaymentMethod,
    observations: string)

  /** `closeDate || null`: an absent or empty close date is written as null. */
  function NullIfEmpty(c: Option<string>): (r: Option<string>)
    ensures r.None? <==> c.None? || c == Some("")
    ensures r.Some? ==> r == c
  {
    if c == Some("") then None else c
  }

  /** The read mapping of `getAll` and `getById`: each column to its camelCase field. */
  function FromRow(row: OrderRow): (o: ServiceOrder)
    ensures o.id == row.id
  {
    ServiceOrder(row.id, row.client_name, row.client_phone, row.description, row.open_date,
                 row.close_date, row.value, row.status, row.payment_method, row.observations)
  }

  /** The row the table holds once `columns` are stored under `id`. */
  function StoredRow(id: int, c: Columns): OrderRow {
    OrderRow(id, c.client_name, c.client_phone, c.description, c.open_date, c.close_date,
             c.value, c.status, c.payment_method, c.observations)
  }

  /**
   * The write mapping of `create` and `update`. Writing an order and reading it back gives the
   * same order, except that an empty close date comes back as absent.
   */
  function ToColumns(d: Draft): (c: Columns)
    ensures forall id :: FromRow(StoredRow(id, c)) == WithId(d, id).(closeDate := NullIfEmpty(d.closeDate))
  {
    Columns(d.clientName, d.clientPhone, d.description, d.openDate, NullIfEmpty(d.closeDate),
            d.value, d.status, d.paymentMethod, d.observations)
  }

  /**
   * Reading a row and writing it back gives the same row, except an empty close date becomes null:
   * so every column lands in exactly one field and no two columns share one.
   */
  lemma RowRoundTrip(row: OrderRow)
    ensures StoredRow(row.id, ToColumns(DraftOf(FromRow(row)))) == row.(close_date := NullIfEmpty(row.close_date))
  {
  }

  /** `Array.map` of the read mapping. */
  function FromRows(rows: seq<OrderRow>): (os: seq<ServiceOrder>)
    ensures |os| == |rows|
    ensures forall i :: 0 <= i < |rows| ==> os[i] == FromRow(rows[i])
  {
    seq(|rows|, i requires 0 <= i < |rows| => FromRow(rows[i]))
  }

  // ----- CRUD against the backend -----

  /** What the adapter asks of the backend. */
  datatype Request =
    | SelectAllNewestFirst
    | SelectOne(id: int)
    | Insert(columns: Columns, user_id: Option<string>)
    | UpdateWhere(id: int, columns: Columns)
    | DeleteWhere(id: int)

  /** The request sent (if any) and the result handed back to the caller. */
  datatype Exchange<R> = Exchange(sent: Option<Request>, result: R)

  /** `getAll`: `[]` without a client; otherwise the mapped rows, or the backend's error re-thrown. */
  function GetAll(client: Client, reply: Result<seq<OrderRow>, string>): (x: Exchange<Result<seq<ServiceOrder>, string>>)
    ensures client.NoClient? ==> x == Exchange(None, Ok([]))
    ensures client.Connected? ==> x.sent == Some(SelectAllNewestFirst)
    ensures client.Connected? && reply.Err? ==> x.result == Err(reply.error)
    ensures client.Connected? && reply.Ok? ==> x.result == Ok(FromRows(reply.value))
  {
    if client.NoClient? then Exchange(None, Ok([]))
    else match reply
      case Err(e) => Exchange(Some(SelectAllNewestFirst), Err(e))
      case Ok(rows) => Exchange(Some(SelectAllNewestFirst), Ok(FromRows(rows)))
  }

  /** `getById`: nothing without a client, on any backend error, or when no row came back. */
  function GetById(client: Client, id: int, reply: Result<Option<OrderRow>, string>): (x: Exchange<Option<ServiceOrder>>)
    ensures client.NoClient? ==> x == Exchange(None, None)
    ensures client.Connected? ==> x.sent == Some(SelectOne(id))
    ensures x.result.Some? <==> client.Connected? && reply.Ok? && reply.value.Some?
    ensures x.result.Some? ==> x.result.value == FromRow(reply.value.value)
  {
    if client.NoClient? then Exchange(None, None)
    else match reply
      case Err(_) => Exchange(Some(SelectOne(id)), None)
      case Ok(None) => Exchange(Some(SelectOne(id)), None)
      case Ok(Some(row)) => Exchange(Some(SelectOne(id)), Some(FromRow(row)))
  }

  /**
   * `create`: fails without a client. Otherwise inserts the mapped columns owned by the current user
   * and returns the input extended with the id the backend assigned (not the row as stored).
   */
  function Create(client: Client, user: Option<User>, d: Draft, reply: Result<OrderRow, string>): (x: Exchange<Result<ServiceOrder, string>>)
    ensures client.NoClient? ==> x == Exchange(None, Err(NotConfiguredMessage))
    ensures client.Connected? ==>
      x.sent == Some(Insert(ToColumns(d), if user.Some? then Some(user.value.id) else None))
    ensures x.result.Ok? <==> client.Connected? && reply.Ok?
    ensures x.result.Ok? ==> DraftOf(x.result.value) == d && x.result.value.id == reply.value.id
    ensures client.Connected? && reply.Err? ==> x.result == Err(reply.error)
  {
    if client.NoClient? then Exchange(None, Err(NotConfiguredMessage))
    else
      var owner := if user.Some? then Some(user.value.id) else None;
      var sent := Some(Insert(ToColumns(d), owner));
      match reply
      case Err(e) => Exchange(sent, Err(e))
      case Ok(row) => Exchange(sent, Ok(WithId(d, row.id)))
  }

  /** `update`: a no-op without a client; otherwise writes the mapped columns to the row with that id. */
  function Update(client: Client, o: ServiceOrder, reply: Result<(), string>): (x: Exchange<Result<(), string>>)
    ensures client.NoClient? ==> x == Exchange(None, Ok(()))
    ensures client.Connected? ==> x == Exchange(Some(UpdateWhere(o.id, ToColumns(DraftOf(o)))), reply)
  {
    if client.NoClient? then Exchange(None, Ok(())) else Exchange(Some(UpdateWhere(o.id, ToColumns(DraftOf(o)))), reply)
  }

  /** `delete`: a no-op without a client; otherwise deletes the row with that id. */
  function Delete(client: Client, id: int, reply: Result<(), string>): (x: Exchange<Result<(), string>>)
    ensures client.NoClient? ==> x == Exchange(None, Ok(()))
    ensures client.Connected? ==> x == Exchange(Some(DeleteWhere(id)), reply)
  {
    if client.NoClient? then Exchange(None, Ok(())) else Exchange(Some(DeleteWhere(id)), reply)
  }

  /** `getStats`: the shared aggregator over what `getAll` returned; `getAll`'s errors propagate. */
  function GetStats(client: Client, reply: Result<seq<OrderRow>, string>, now: MonthYear,
                    calendar: string -> Option<MonthYear>): (r: Result<DashboardStats, string>)
    ensures r.Err? <==> GetAll(client, reply).result.Err?
    ensures r.Ok? ==> r.value == ComputeStats(GetAll(client, reply).result.value, now, calendar)
  {
    match GetAll(client, reply).result
    case Err(e) => Err(e)
    case Ok(orders) => Ok(ComputeStats(orders, now, calendar))
  }

  /**
   * The remote statistics equal the local aggregator's over any list holding the same orders,
   * whatever their order: the newest-first order of the backend makes no difference.
   */
  lemma StatsAgreeWithLocal(client: Client, rows: seq<OrderRow>, local: seq<ServiceOrder>,
                            now: MonthYear, calendar: string -> Option<MonthYear>)
    requires client.Connected? && multiset(FromRows(rows)) == multiset(local)
    ensures GetStats(client, Ok(rows), now, calendar) == Ok(ComputeStats(local, now, calendar))
  {
    StatsPermutation(FromRows(rows), local, now, calendar);
  }

  /** Without a client the statistics are those of an empty store. */
  lemma UnconfiguredStats(reply: Result<seq<OrderRow>, string>, now: MonthYear, calendar: string -> Option<MonthYear>)
    ensures GetStats(NoClient, reply, now, calendar) == Ok(DashboardStats(0, 0, 0, CountsFor(AllStatuses, [])))
  {
  }
}

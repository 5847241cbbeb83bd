/** The shared entity model: order statuses, payment methods, service orders and dashboard statistics. */
module Types {
  import opened Wrappers

  /** The six order statuses, in declaration order. */
  datatype OrderStatus = Open | Creation | Production | AwaitingInstallation | Completed | Cancelled

  /** The statuses in the order the enum declares them. */
  const AllStatuses: seq<OrderStatus> := [Open, Creation, Production, AwaitingInstallation, Completed, Cancelled]

  /** The string each status carries at run time. */
  function StatusCode(s: OrderStatus): string {
    match s
    case Open => "Aberta"
    case Creation => "Criação"
    case Production => "Produção"
    case AwaitingInstallation => "Aguardando instalação"
    case Completed => "Concluída"
    case Cancelled => "Cancelada"
  }

  /** The status a run-time string denotes, if any. */
  function StatusFromCode(code: string): (r: Option<OrderStatus>)
    ensures r.Some? ==> StatusCode(r.value) == code
    ensures r.None? ==> forall s: OrderStatus :: StatusCode(s) != code
  {
    if code == "Aberta" then Some(Open)
    else if code == "Criação" then Some(Creation)
    else if code == "Produção" then Some(Production)
    else if code == "Aguardando instalação" then Some(AwaitingInstallation)
    else if code == "Concluída" then Some(Completed)
    else if code == "Cancelada" then Some(Cancelled)
    else None
  }

  /** Every status is listed exactly once, and the codes are pairwise distinct. */
  lemma StatusesEnumerated()
    ensures |AllStatuses| == 6
    ensures forall s: OrderStatus :: s in AllStatuses
    ensures forall i, j :: 0 <= i < j < |AllStatuses| ==> StatusCode(AllStatuses[i]) != StatusCode(AllStatuses[j])
    ensures forall s: OrderStatus :: StatusFromCode(StatusCode(s)) == Some(s)
  {
    forall s: OrderStatus ensures s in AllStatuses {
      match s
      case Open => assert AllStatuses[0] == s;
      case Creation => assert AllStatuses[1] == s;
      case Production => assert AllStatuses[2] == s;
      case AwaitingInstallation => assert AllStatuses[3] == s;
      case Completed => assert AllStatuses[4] == s;
      case Cancelled => assert AllStatuses[5] == s;
    }
  }

  /** The five known payment methods, or any other string the order carries. */
  datatype PaymentMethod = Cash | Pix | Credit | Debit | Boleto | OtherMethod(code: string)

  function PaymentCode(p: PaymentMethod): string {
    match p
    case Cash => "Dinheiro"
    case Pix => "Pix"
    case Credit => "Crédito"
    case Debit => "Débito"
    case Boleto => "Boleto"
    case OtherMethod(c) => c
  }

  /** A payment method whose free-string form does not spell one of the five known codes. */
  predicate CanonicalPayment(p: PaymentMethod) {
    p.OtherMethod? ==> p.code !in ["Dinheiro", "Pix", "Crédito", "Débito", "Boleto"]
  }

  /** Reads the run-time string of a payment method; the string survives unchanged. */
  function PaymentFromCode(code: string): (p: PaymentMethod)
    ensures PaymentCode(p) == code
    ensures CanonicalPayment(p)
  {
    if code == "Dinheiro" then Cash
    else if code == "Pix" then Pix
    else if code == "Crédito" then Credit
    else if code == "Débito" then Debit
    else if code == "Boleto" then Boleto
    else OtherMethod(code)
  }

  /** Canonical payment methods are recovered from their string. */
  lemma PaymentRoundTrip(p: PaymentMethod)
    requires CanonicalPayment(p)
    ensures PaymentFromCode(PaymentCode(p)) == p
  {
  }

  /** A monetary amount as `Number(...)` sees it: a number of cents, or not a number at all. */
  datatype Amount = Num(cents: int) | NaN

  /** `Number(value) || 0`: non-numeric amounts count as zero. */
  function CentsOrZero(a: Amount): (c: int)
    ensures a.NaN? ==> c == 0
    ensures a.Num? ==> c == a.cents
  {
    match a
    case Num(c) => c
    case NaN => 0
  }

  /** A service order. `closeDate` is optional (`None` for absent or null); every other field is required. */
  datatype ServiceOrder = ServiceOrder(
    id: int,
    clientName: string,
    clientPhone: string,
    description: string,
    openDate: string,
    closeDate: Option<string>,
    value: Amount,
    status: OrderStatus,
    paymentMethod: PaymentMethod,
    observations: string)

  /** `Omit<ServiceOrder, 'id'>`: an order before the persistence layer has given it an id. */
  datatype Draft = Draft(
    clientName: string,
    clientPhone: string,
    description: string,
    openDate: string,
    closeDate: Option<string>,
    value: Amount,
    status: OrderStatus,
    paymentMethod: PaymentMethod,
    observations: string)

  /** `{ ...draft, id }`. */
  function WithId(d: Draft, id: int): (o: ServiceOrder)
    ensures o.id == id
  {
    ServiceOrder(id, d.clientName, d.clientPhone, d.description, d.openDate, d.closeDate,
                 d.value, d.status, d.paymentMethod, d.observations)
  }

  /** Every field of an order except its id. */
  function DraftOf(o: ServiceOrder): Draft {
    Draft(o.clientName, o.clientPhone, o.description, o.openDate, o.closeDate,
          o.value, o.status, o.paymentMethod, o.observations)
  }

  /** Attaching an id and dropping it again are inverse. */
  lemma DraftRoundTrip(d: Draft, o: ServiceOrder, id: int)
    ensures DraftOf(WithId(d, id)) == d
    ensures WithId(DraftOf(o), o.id) == o
  {
  }

  /** One bar of the dashboard chart: a status code and how many orders have that status. */
  datatype StatusCount = StatusCount(name: string, value: nat)

  /** Two counts, one amount and a list of (name, count) pairs. */
  datatype DashboardStats = DashboardStats(
    totalOpen: nat,
    completedThisMonth: nat,
    revenueThisMonth: int,
    byStatus: seq<StatusCount>)

  /** A calendar month: `getMonth()` (0 to 11) and `getFullYear()`. */
  datatype MonthYear = MonthYear(month: int, year: int)
}

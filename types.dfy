/** The order record and the enumerations every screen shares. */
module Types {

  /** How a shipment travels: plane, boat, or a mix of both. */
  datatype Transport = Avion | Bateau | Mix

  /** Where a shipment stands: ordered, arrived, picked up, delivered. */
  datatype Status = Encours | Arrive | Recupere | Livre

  datatype Lang = Fr | En
  datatype Theme = Dark | Light
  datatype Screen = Onboarding | Pin | Splash | App

  /** One tracked order. Prices are whole amounts of XOF. */
  datatype Order = Order(
    id: string,
    client: string,
    transport: Transport,
    realPrice: int,
    clientPrice: int,
    profit: int,
    dateOrder: string,
    dateArrival: string,
    datePickup: string,
    dateDelivery: string,
    status: Status,
    photos: seq<string>,
    rating: int,
    review: string,
    suggestions: string,
    createdAt: int)

  datatype Option<T> = None | Some(value: T)

  /** The wire name of a transport, as stored and as compared by the filters. */
  function TransportName(t: Transport): string
  {
    match t
    case Avion => "avion"
    case Bateau => "bateau"
    case Mix => "mix"
  }

  function StatusName(s: Status): string
  {
    match s
    case Encours => "encours"
    case Arrive => "arrive"
    case Recupere => "recupere"
    case Livre => "livre"
  }

  /** Reads a transport name back; any other text is not a transport. */
  function TransportFromName(name: string): (r: Option<Transport>)
    ensures r.Some? ==> TransportName(r.value) == name
    ensures forall t :: TransportName(t) == name ==> r == Some(t)
  {
    if name == "avion" then Some(Avion)
    else if name == "bateau" then Some(Bateau)
    else if name == "mix" then Some(Mix)
    else None
  }

  function StatusFromName(name: string): (r: Option<Status>)
    ensures r.Some? ==> StatusName(r.value) == name
    ensures forall s :: StatusName(s) == name ==> r == Some(s)
  {
    if name == "encours" then Some(Encours)
    else if name == "arrive" then Some(Arrive)
    else if name == "recupere" then Some(Recupere)
    else if name == "livre" then Some(Livre)
    else None
  }

  /** The transports in the order the form and the filters offer them. */
  const TransportOptions: seq<Transport> := [Avion, Bateau, Mix]

  /** The statuses in the order the form and the filters offer them. */
  const StatusOptions: seq<Status> := [Encours, Arrive, Recupere, Livre]

  /** Each transport is offered exactly once, and the names read avion, bateau, mix. */
  lemma TransportOptionsComplete()
    ensures forall t :: t in TransportOptions
    ensures forall i, j :: 0 <= i < j < |TransportOptions| ==> TransportOptions[i] != TransportOptions[j]
    ensures seq(|TransportOptions|, i requires 0 <= i < |TransportOptions| => TransportName(TransportOptions[i]))
            == ["avion", "bateau", "mix"]
  {
    forall t ensures t in TransportOptions {
      match t
      case Avion => assert TransportOptions[0] == t;
      case Bateau => assert TransportOptions[1] == t;
      case Mix => assert TransportOptions[2] == t;
    }
  }

  /** Each status is offered exactly once, and the names read encours, arrive, recupere, livre. */
  lemma StatusOptionsComplete()
    ensures forall s :: s in StatusOptions
    ensures forall i, j :: 0 <= i < j < |StatusOptions| ==> StatusOptions[i] != StatusOptions[j]
    ensures seq(|StatusOptions|, i requires 0 <= i < |StatusOptions| => StatusName(StatusOptions[i]))
            == ["encours", "arrive", "recupere", "livre"]
  {
    forall s ensures s in StatusOptions {
      match s
      case Encours => assert StatusOptions[0] == s;
      case Arrive => assert StatusOptions[1] == s;
      case Recupere => assert StatusOptions[2] == s;
      case Livre => assert StatusOptions[3] == s;
    }
  }

  function LangName(l: Lang): string
  {
    match l
    case Fr => "fr"
    case En => "en"
  }

  function ThemeName(t: Theme): string
  {
    match t
    case Dark => "dark"
    case Light => "light"
  }
}

/**
 * The entities of the dashboard (an idea, called a "service", with its
 * scores; users; AI results; chat messages) and the list helpers that the
 * mock backend and the client store share: find by id, replace by id,
 * remove by id and the score total.
 */
module Ideas {
  import opened Wrappers

  /** The four workflow states of an idea. */
  datatype Status = Evaluation | Approved | Cancelled | Completed

  /** The stored spelling of each status. */
  function StatusName(s: Status): string
  {
    match s
    case Evaluation => "avaliação"
    case Approved => "aprovada"
    case Cancelled => "cancelada"
    case Completed => "finalizada"
  }

  /** Number of scoring criteria in the static criteria catalog. */
  const CriteriaCount: nat := 5

  /** Titles of the five scoring criteria, in catalog order. */
  const CriteriaTitles: seq<string> := [
    "Alinhamento Estratégico e Propósito da Marca",
    "Potencial de Geração de Valor para o Cliente",
    "Potencial de Impacto no Faturamento e Rentabilidade",
    "Viabilidade e Capacidade de Execução",
    "Diferenciação e Vantagem Competitiva"
  ]

  /**
   * An idea record. `S` is the type of its scores: a `Service` held by the
   * dashboard always has a list of integers, while a row just received from
   * the backend may carry something that is not a list at all.
   */
  datatype Idea<S> = Idea(
    id: int,
    service: string,
    need: string,
    cluster: string,
    businessModel: string,
    targetAudience: Option<string>,
    status: Option<Status>,
    creatorName: Option<string>,
    creationDate: Option<string>,
    scores: S,
    revenueEstimate: Option<int>)

  type Service = Idea<seq<int>>

  /** The `scores` field as it arrives: a list, or some other value. */
  datatype RawScores = ScoreList(values: seq<int>) | NotAList

  type RawService = Idea<RawScores>

  /**
   * The payload of `addService`: every field of an idea except the four the
   * backend assigns. The four trailing fields are those keys, which the typed
   * client never sends but an untyped caller of the backend may.
   */
  datatype Draft = Draft(
    service: string,
    need: string,
    cluster: string,
    businessModel: string,
    targetAudience: Option<string>,
    status: Option<Status>,
    creatorName: Option<string>,
    id: Option<int>,
    creationDate: Option<string>,
    scores: Option<seq<int>>,
    revenueEstimate: Option<int>)

  datatype User = User(name: string, email: string)

  datatype AuthResponse = AuthResponse(user: User, token: string)

  /** The AI's proposal for a new idea: benefit, audience, business model. */
  datatype AIGeneratedIdea = AIGeneratedIdea(beneficio: string, publico: string, modelo: string)

  /** One entry of the AI ranking: new scores for the idea with this id. */
  datatype Ranking = Ranking(id: int, scores: seq<int>)

  datatype WebSource = WebSource(uri: string, title: string)

  /** A grounding chunk of an AI answer; `web` may be missing. */
  datatype GroundingChunk = GroundingChunk(web: Option<WebSource>)

  /** The AI's answer to a chat question. */
  datatype Insight = Insight(text: string, groundingChunks: seq<GroundingChunk>)

  datatype Sender = UserSender | AiSender

  datatype ChatMessage = ChatMessage(text: string, sender: Sender)

  /**
   * A thrown value: an `Error` object with its message, or any other value
   * together with what `String(value)` makes of it.
   */
  datatype Thrown = ErrorObject(message: string) | OtherValue(rendered: string)

  /** `error instanceof Error ? error.message : String(error)`. */
  function ThrownText(t: Thrown): string
  {
    match t
    case ErrorObject(m) => m
    case OtherValue(s) => s
  }

  /** The total of a score list, `scores.reduce((a, b) => a + b, 0)`. */
  function Sum(xs: seq<int>): int
  {
    if xs == [] then 0 else xs[0] + Sum(xs[1..])
  }

  /** `Array(n).fill(0)`. */
  function Zeros(n: nat): (r: seq<int>)
    ensures |r| == n && forall i :: 0 <= i < n ==> r[i] == 0
  {
    seq(n, _ => 0)
  }

  /** `items.findIndex(s => s.id === id)`: the first position holding that id. */
  function FindIndex(items: seq<Service>, id: int): (r: Option<nat>)
    ensures r.Some? ==> r.value < |items| && items[r.value].id == id
    ensures r.Some? ==> forall j :: 0 <= j < r.value ==> items[j].id != id
    ensures r.None? <==> forall j :: 0 <= j < |items| ==> items[j].id != id
  {
    if items == [] then None
    else if items[0].id == id then Some(0)
    else match FindIndex(items[1..], id)
      case Some(k) => Some(k + 1)
      case None => None
  }

  /** `items.find(s => s.id === id)`. */
  function FindById(items: seq<Service>, id: int): (r: Option<Service>)
    ensures r.Some? ==> r.value in items && r.value.id == id
    ensures r.None? <==> forall j :: 0 <= j < |items| ==> items[j].id != id
  {
    match FindIndex(items, id)
    case Some(k) => Some(items[k])
    case None => None
  }

  /** `items.map(s => s.id === u.id ? u : s)`. */
  function ReplaceById(items: seq<Service>, u: Service): (r: seq<Service>)
    ensures |r| == |items|
    ensures forall j :: 0 <= j < |items| && items[j].id == u.id ==> r[j] == u
    ensures forall j :: 0 <= j < |items| && items[j].id != u.id ==> r[j] == items[j]
  {
    seq(|items|, j requires 0 <= j < |items| => if items[j].id == u.id then u else items[j])
  }

  /** Replacing twice with the same record is the same as replacing once. */
  lemma ReplaceByIdIdempotent(items: seq<Service>, u: Service)
    ensures ReplaceById(ReplaceById(items, u), u) == ReplaceById(items, u)
  {
  }

  /** `items.filter(s => s.id !== id)`. */
  function RemoveById(items: seq<Service>, id: int): (r: seq<Service>)
    ensures |r| <= |items|
    ensures forall x :: x in r <==> x in items && x.id != id
  {
    if items == [] then []
    else (if items[0].id != id then [items[0]] else []) + RemoveById(items[1..], id)
  }

  /** Removing an id that is absent changes nothing. */
  lemma {:induction false} RemoveAbsentId(items: seq<Service>, id: int)
    requires forall j :: 0 <= j < |items| ==> items[j].id != id
    ensures RemoveById(items, id) == items
  {
    if items != [] {
      RemoveAbsentId(items[1..], id);
    }
  }

  /** A second removal of the same id is a no-op: removal is idempotent. */
  lemma RemoveByIdIdempotent(items: seq<Service>, id: int)
    ensures RemoveById(RemoveById(items, id), id) == RemoveById(items, id)
  {
    var r := RemoveById(items, id);
    forall j | 0 <= j < |r| ensures r[j].id != id {
      assert r[j] in r;
    }
    RemoveAbsentId(r, id);
  }

  /** Removal distributes over concatenation. */
  lemma {:induction false} RemoveAppend(a: seq<Service>, b: seq<Service>, id: int)
    ensures RemoveById(a + b, id) == RemoveById(a, id) + RemoveById(b, id)
  {
    if a == [] {
      assert a + b == b;
    } else {
      assert (a + b)[1..] == a[1..] + b;
      RemoveAppend(a[1..], b, id);
    }
  }

  /** Removal keeps the order of what remains: it drops only the entries with that id. */
  lemma RemoveKeepsOrder(items: seq<Service>, id: int, k: nat)
    requires k <= |items|
    ensures RemoveById(items, id) == RemoveById(items[..k], id) + RemoveById(items[k..], id)
  {
    assert items == items[..k] + items[k..];
    RemoveAppend(items[..k], items[k..], id);
  }
}

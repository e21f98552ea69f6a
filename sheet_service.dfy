/**
 * The spreadsheet backend client: the flat row format sent to the sheet,
 * the in-memory mock backend used when no web-app URL is configured, and
 * the unwrapping of `{success, data, error}` envelopes into a value or an
 * error message.
 */
module SheetService {
  import opened Wrappers
  import opened Text
  import opened Ideas

  /** The URL value that stands for "not configured". */
  const PlaceholderUrl: string := "YOUR_GOOGLE_APPS_SCRIPT_WEB_APP_URL_HERE"

  /** The web-app URL the repository is configured with. */
  const WebAppUrl: string := "https://script.google.com/macros/s/AKfycbxhnPlNOW1fd2jHtJkVFyLnavi_8Dm-0W5CNKzjMbq_9G-fCERVx54g_voglXPEGHxCqg/exec"

  /** The mock backend answers exactly when the URL is the placeholder or empty. */
  predicate UsesMock(url: string)
  {
    url == PlaceholderUrl || url == ""
  }

  /** As configured, requests go over HTTP and the mock is never consulted. */
  lemma ConfiguredUrlUsesHttp()
    ensures !UsesMock(WebAppUrl)
  {
  }

  // ---------------------------------------------------------------------
  // Sheet rows
  // ---------------------------------------------------------------------

  /**
   * The flat record written to the sheet: optional text fields become '',
   * the status defaults to 'avaliação', the scores are spread over five
   * named columns and the revenue estimate defaults to 0.
   */
  datatype SheetRow = SheetRow(
    id: int,
    service: string,
    need: string,
    cluster: string,
    businessModel: string,
    targetAudience: string,
    status: Status,
    creatorName: string,
    creationDate: string,
    scoreAlinhamento: int,
    scoreValorCliente: int,
    scoreImpactoFin: int,
    scoreViabilidade: int,
    scoreVantagemComp: int,
    revenueEstimate: int)

  /** `scores?.[k] ?? 0`: the k-th score, or 0 past the end of the list. */
  function ScoreAt(scores: seq<int>, k: nat): int
  {
    if k < |scores| then scores[k] else 0
  }

  /** The five score columns of a row, in criteria order. */
  function RowScores(row: SheetRow): (r: seq<int>)
    ensures |r| == CriteriaCount
  {
    [row.scoreAlinhamento, row.scoreValorCliente, row.scoreImpactoFin, row.scoreViabilidade, row.scoreVantagemComp]
  }

  /** `serviceToSheetData`: an idea flattened into a sheet row, with the defaults filled in. */
  function ServiceToSheetData(s: Service): (row: SheetRow)
    ensures row.id == s.id
    ensures s.status.None? ==> row.status == Evaluation
    ensures s.targetAudience.None? ==> row.targetAudience == ""
    ensures s.creatorName.None? ==> row.creatorName == ""
    ensures s.creationDate.None? ==> row.creationDate == ""
    ensures s.revenueEstimate.None? ==> row.revenueEstimate == 0
    ensures forall k :: 0 <= k < CriteriaCount ==>
              RowScores(row)[k] == (if k < |s.scores| then s.scores[k] else 0)
  {
    SheetRow(s.id, s.service, s.need, s.cluster, s.businessModel,
      OrElse(s.targetAudience, ""), OrElse(s.status, Evaluation),
      OrElse(s.creatorName, ""), OrElse(s.creationDate, ""),
      ScoreAt(s.scores, 0), ScoreAt(s.scores, 1), ScoreAt(s.scores, 2),
      ScoreAt(s.scores, 3), ScoreAt(s.scores, 4),
      OrElse(s.revenueEstimate, 0))
  }

  /**
   * The idea a sheet row stands for: every field present, the five score
   * columns gathered back into a list. This is what a merge of a row over a
   * stored idea is meant to produce.
   */
  function RowToService(row: SheetRow): (s: Service)
    ensures s.id == row.id && s.scores == RowScores(row)
    ensures s.revenueEstimate == Some(row.revenueEstimate)
  {
    Idea(row.id, row.service, row.need, row.cluster, row.businessModel,
      Some(row.targetAudience), Some(row.status), Some(row.creatorName), Some(row.creationDate),
      RowScores(row), Some(row.revenueEstimate))
  }

  /** An idea with every optional field present and one score per criterion. */
  predicate Complete(s: Service)
  {
    s.targetAudience.Some? && s.status.Some? && s.creatorName.Some? && s.creationDate.Some?
    && s.revenueEstimate.Some? && |s.scores| == CriteriaCount
  }

  /** Flattening loses nothing of a complete idea. */
  lemma ServiceRoundTrip(s: Service)
    requires Complete(s)
    ensures RowToService(ServiceToSheetData(s)) == s
  {
    assert RowScores(ServiceToSheetData(s)) == s.scores;
  }

  /** Every row is the flattening of the idea it stands for. */
  lemma SheetRowRoundTrip(row: SheetRow)
    ensures ServiceToSheetData(RowToService(row)) == row
  {
  }

  /**
   * The merge the mock performs, `{...stored, ...row}`, written out. The row
   * carries the scores under `score_*` keys and the revenue under
   * `revenue_estimate`, so the idea's own `scores` and `revenueEstimate`
   * keep their stored values.
   */
  function MergeRowAsWritten(stored: Service, row: SheetRow): Service
  {
    stored.(id := row.id, service := row.service, need := row.need, cluster := row.cluster,
      businessModel := row.businessModel, targetAudience := Some(row.targetAudience),
      status := Some(row.status), creatorName := Some(row.creatorName),
      creationDate := Some(row.creationDate))
  }

  /**
   * An update of the first seeded idea that zeroes its scores and revenue
   * leaves both unchanged in the mock as written.
   */
  lemma AsWrittenMergeLosesScores()
    ensures var stored := Seeds[0];
            var edited := stored.(scores := [0, 0, 0, 0, 0], revenueEstimate := Some(0));
            var merged := MergeRowAsWritten(stored, ServiceToSheetData(edited));
            merged.scores == [5, 4, 3, 5, 4] != edited.scores
            && merged.revenueEstimate == Some(150000) != edited.revenueEstimate
  {
  }

  /**
   * With the corrected merge, updating the list with the row of a complete
   * idea stores exactly that idea at the position of its id.
   */
  lemma UpdateStoresEdited(items: seq<Service>, edited: Service, k: nat)
    requires Complete(edited) && FindIndex(items, edited.id) == Some(k)
    ensures MergeOne(items, ServiceToSheetData(edited))[k] == edited
  {
    ServiceRoundTrip(edited);
  }

  // ---------------------------------------------------------------------
  // The mock backend as a state machine
  // ---------------------------------------------------------------------

  /** The three ideas the mock starts with. */
  const Seeds: seq<Service> := [
    Idea(1, "Consultoria de Casa Inteligente",
      "Ajuda para escolher e instalar dispositivos de casa inteligente compatíveis.",
      "Casa Inteligente", "Consultoria", Some("Proprietários de casas"), Some(Approved),
      Some("Ana"), Some("2023-10-01T10:00:00Z"), [5, 4, 3, 5, 4], Some(150000)),
    Idea(2, "Plano de Suporte Técnico Premium",
      "Suporte técnico 24/7 para todos os eletrônicos da casa.",
      "Suporte Técnico", "Assinatura/Recorrência", Some("Famílias com muitos dispositivos"),
      Some(Evaluation), Some("Bruno"), Some("2023-10-02T11:30:00Z"), [4, 5, 5, 4, 3], Some(500000)),
    Idea(3, "Aluguel de Equipamentos de Realidade Virtual",
      "Acesso a equipamentos de VR de ponta para eventos ou uso casual.",
      "Acesso Flexível", "Locação", Some("Gamers e planejadores de eventos"), Some(Evaluation),
      Some("Carlos"), Some("2023-10-03T14:00:00Z"), [3, 4, 3, 4, 4], Some(80000))
  ]

  /** `items.reduce((max, s) => Math.max(max, s.id), 0)`. */
  function MaxId(items: seq<Service>): (r: int)
    ensures r >= 0
    ensures forall j :: 0 <= j < |items| ==> items[j].id <= r
    ensures r == 0 || exists j :: 0 <= j < |items| && items[j].id == r
  {
    if items == [] then 0
    else
      var m := MaxId(items[..|items| - 1]);
      var last := items[|items| - 1].id;
      if last > m then last else m
  }

  /** The seeded ids are 1, 2 and 3, so the mock's first free id is 4. */
  lemma SeedsNextId()
    ensures forall j :: 0 <= j < |Seeds| ==> Seeds[j].id == j + 1
    ensures MaxId(Seeds) + 1 == 4
  {
    assert Seeds[..2][..1] == Seeds[..1];
    assert Seeds[..3][..2] == Seeds[..2];
    assert Seeds[..3] == Seeds;
  }

  /** The seeded ids are distinct. */
  lemma SeedsUnique()
    ensures UniqueIds(Seeds)
  {
    SeedsNextId();
  }

  /** The requests the mock understands, with their payloads; `Unknown` is any other action name. */
  datatype Request =
    | GetServices
    | AddService(draft: Draft)
    | UpdateService(row: SheetRow)
    | BulkUpdateServices(rows: seq<SheetRow>)
    | DeleteService(id: int)
    | GetAIGeneratedIdeaDetails(idea: string)
    | GetAIRanking(services: seq<Service>)
    | GetAIInsight
    | LoginUser(email: string, password: string)
    | RegisterUser(name: string, email: string, password: string)
    | Unknown(action: string)

  /** The `data` of a successful reply. */
  datatype Data =
    | ServiceList(services: seq<Service>)
    | OneService(service: Service)
    | UpdatedCount(count: nat)
    | DeletedId(id: int)
    | IdeaDetails(details: AIGeneratedIdea)
    | Rankings(rankings: seq<Ranking>)
    | InsightData(insight: Insight)
    | Auth(auth: AuthResponse)

  /** The envelope the mock resolves with; it never rejects. */
  datatype MockReply = Success(data: Data) | Failure(error: string)

  /** The idea `addService` creates from a payload: the caller's fields, then the four assigned ones. */
  function Created(d: Draft, id: int, now: string): (s: Service)
    ensures s.id == id && s.scores == Zeros(CriteriaCount) && s.revenueEstimate == Some(0)
    ensures s.creationDate == Some(now)
  {
    Idea(id, d.service, d.need, d.cluster, d.businessModel, d.targetAudience, d.status,
      d.creatorName, Some(now), Zeros(CriteriaCount), Some(0))
  }

  /** Any id, date, scores or revenue the caller puts in the payload is overridden. */
  lemma CreatedIgnoresAssignedKeys(d1: Draft, d2: Draft, id: int, now: string)
    requires d1.(id := None, creationDate := None, scores := None, revenueEstimate := None)
          == d2.(id := None, creationDate := None, scores := None, revenueEstimate := None)
    ensures Created(d1, id, now) == Created(d2, id, now)
  {
  }

  /** One `updateService` step: the first entry with the row's id becomes the row's idea. */
  function MergeOne(items: seq<Service>, row: SheetRow): (r: seq<Service>)
    ensures |r| == |items|
    ensures forall j :: 0 <= j < |items| ==> r[j].id == items[j].id
    ensures FindIndex(items, row.id).None? ==> r == items
  {
    match FindIndex(items, row.id)
    case Some(k) => items[k := RowToService(row)]
    case None => items
  }

  /** The `forEach` merge of `bulkUpdateServices`, one row after the other. */
  function BulkMerge(items: seq<Service>, rows: seq<SheetRow>): (r: seq<Service>)
    ensures |r| == |items|
    ensures forall j :: 0 <= j < |items| ==> r[j].id == items[j].id
  {
    if rows == [] then items else MergeOne(BulkMerge(items, rows[..|rows| - 1]), rows[|rows| - 1])
  }

  /** Two lists with the same ids at the same positions find an id at the same place. */
  lemma {:induction false} FindIndexSameIds(a: seq<Service>, b: seq<Service>, id: int)
    requires |a| == |b| && forall j :: 0 <= j < |a| ==> a[j].id == b[j].id
    ensures FindIndex(a, id) == FindIndex(b, id)
  {
    if a != [] {
      FindIndexSameIds(a[1..], b[1..], id);
    }
  }

  /** An entry whose id no row mentions comes out of a bulk merge unchanged. */
  lemma {:induction false} BulkMergeKeepsUnmentioned(items: seq<Service>, rows: seq<SheetRow>, j: nat)
    requires j < |items|
    requires forall i :: 0 <= i < |rows| ==> rows[i].id != items[j].id
    ensures BulkMerge(items, rows)[j] == items[j]
  {
    if rows != [] {
      BulkMergeKeepsUnmentioned(items, rows[..|rows| - 1], j);
    }
  }

  /** Rows whose ids are all unknown leave the list as it was. */
  lemma {:induction false} BulkMergeSkipsUnknown(items: seq<Service>, rows: seq<SheetRow>)
    requires forall i :: 0 <= i < |rows| ==> FindIndex(items, rows[i].id).None?
    ensures BulkMerge(items, rows) == items
  {
    if rows != [] {
      BulkMergeSkipsUnknown(items, rows[..|rows| - 1]);
    }
  }

  /** The last row submitted for a known id decides that entry. */
  lemma LastRowWins(items: seq<Service>, rows: seq<SheetRow>)
    requires rows != [] && FindIndex(items, rows[|rows| - 1].id).Some?
    ensures BulkMerge(items, rows)[FindIndex(items, rows[|rows| - 1].id).value] == RowToService(rows[|rows| - 1])
  {
    var prefix := BulkMerge(items, rows[..|rows| - 1]);
    FindIndexSameIds(prefix, items, rows[|rows| - 1].id);
  }

  /** `Serviço com id ${id} não encontrado.` */
  function NotFoundMessage(id: int): string
  {
    "Serviço com id " + IntToString(id) + " não encontrado."
  }

  /** The not-found message always says "não encontrado". */
  lemma NotFoundMentionsMissing(id: int)
    ensures Contains(NotFoundMessage(id), "não encontrado")
  {
    ContainsInfix("Serviço com id " + IntToString(id) + " ", "não encontrado", ".");
    assert NotFoundMessage(id) == "Serviço com id " + IntToString(id) + " " + "não encontrado" + ".";
  }

  /**
   * The simulated AI ranking: for each idea its id and five scores, each
   * `roll(i, k) % 6`, i.e. `Math.floor(Math.random() * 6)` drawn by `roll`.
   */
  function MockRankings(services: seq<Service>, roll: (nat, nat) -> nat): (r: seq<Ranking>)
    ensures |r| == |services|
    ensures forall i :: 0 <= i < |r| ==> r[i].id == services[i].id && |r[i].scores| == CriteriaCount
    ensures forall i, k :: 0 <= i < |r| && 0 <= k < |r[i].scores| ==> 0 <= r[i].scores[k] <= 5
  {
    seq(|services|, i requires 0 <= i < |services| =>
      Ranking(services[i].id, seq(CriteriaCount, k requires 0 <= k < CriteriaCount => roll(i, k) % 6)))
  }

  /** The idea list after the mock has handled `req`. */
  function NextServices(items: seq<Service>, nextId: int, req: Request, now: string): seq<Service>
  {
    match req
    case AddService(d) => items + [Created(d, nextId, now)]
    case UpdateService(row) => MergeOne(items, row)
    case BulkUpdateServices(rows) => BulkMerge(items, rows)
    case DeleteService(id) => RemoveById(items, id)
    case _ => items
  }

  /** The mock's next free id after `req`: only an add consumes one. */
  function NextId(nextId: int, req: Request): int
  {
    if req.AddService? then nextId + 1 else nextId
  }

  /** The envelope the mock resolves with for `req`. */
  function Reply(items: seq<Service>, nextId: int, req: Request, now: string,
                 roll: (nat, nat) -> nat): MockReply
  {
    match req
    case GetServices => Success(ServiceList(items))
    case AddService(d) => Success(OneService(Created(d, nextId, now)))
    case UpdateService(row) =>
      if FindIndex(items, row.id).Some? then Success(OneService(RowToService(row)))
      else Failure(NotFoundMessage(row.id))
    case BulkUpdateServices(rows) => Success(UpdatedCount(|rows|))
    case DeleteService(id) => Success(DeletedId(id))
    case GetAIGeneratedIdeaDetails(idea) =>
      Success(IdeaDetails(AIGeneratedIdea("Benefício simulado para \"" + idea + "\"",
        "Público-alvo simulado", "Assinatura/Recorrência")))
    case GetAIRanking(ss) => Success(Rankings(MockRankings(ss, roll)))
    case GetAIInsight =>
      Success(InsightData(Insight("Esta é uma **análise simulada** sobre sua pergunta.", [])))
    case LoginUser(email, password) =>
      if email != "" && password != "" then Success(Auth(AuthResponse(User("Mock User", email), "mock-jwt-token")))
      else Failure("Email and password required.")
    case RegisterUser(name, email, password) =>
      if name != "" && email != "" && password != "" then Success(Auth(AuthResponse(User(name, email), "mock-jwt-token")))
      else Failure("Name, email, and password required.")
    case Unknown(action) => Failure("Ação de mock desconhecida: " + action)
  }

  /** A failure envelope leaves the list and the id counter as they were. */
  lemma FailureChangesNothing(items: seq<Service>, nextId: int, req: Request, now: string,
                              roll: (nat, nat) -> nat)
    requires Reply(items, nextId, req, now, roll).Failure?
    ensures NextServices(items, nextId, req, now) == items && NextId(nextId, req) == nextId
  {
  }

  /**
   * Update: on a known id only that entry changes and it becomes the row's
   * idea; on an unknown id the reply is a failure that says "não encontrado"
   * and the list is unchanged.
   */
  lemma UpdateOutcome(items: seq<Service>, nextId: int, row: SheetRow, now: string,
                      roll: (nat, nat) -> nat)
    ensures var after := NextServices(items, nextId, UpdateService(row), now);
            var reply := Reply(items, nextId, UpdateService(row), now, roll);
            match FindIndex(items, row.id)
            case Some(k) =>
              reply.Success? && |after| == |items| && after[k] == RowToService(row)
              && forall j :: 0 <= j < |items| && j != k ==> after[j] == items[j]
            case None =>
              reply.Failure? && Contains(reply.error, "não encontrado") && after == items
  {
    NotFoundMentionsMissing(row.id);
  }

  /** Bulk update keeps the length and reports the number of rows submitted, matched or not. */
  lemma BulkOutcome(items: seq<Service>, nextId: int, rows: seq<SheetRow>, now: string,
                    roll: (nat, nat) -> nat)
    ensures |NextServices(items, nextId, BulkUpdateServices(rows), now)| == |items|
    ensures Reply(items, nextId, BulkUpdateServices(rows), now, roll) == Success(UpdatedCount(|rows|))
  {
  }

  /** Deleting twice is deleting once, and deleting an absent id succeeds without change. */
  lemma DeleteOutcome(items: seq<Service>, nextId: int, id: int, now: string,
                      roll: (nat, nat) -> nat)
    ensures var after := NextServices(items, nextId, DeleteService(id), now);
            Reply(items, nextId, DeleteService(id), now, roll).Success?
            && NextServices(after, nextId, DeleteService(id), now) == after
            && ((forall j :: 0 <= j < |items| ==> items[j].id != id) ==> after == items)
  {
    RemoveByIdIdempotent(items, id);
    if forall j :: 0 <= j < |items| ==> items[j].id != id {
      RemoveAbsentId(items, id);
    }
  }

  /** No two entries of the list share an id. */
  predicate UniqueIds(items: seq<Service>)
  {
    forall i, j :: 0 <= i < j < |items| ==> items[i].id != items[j].id
  }

  /** Removing entries keeps ids unique. */
  lemma {:induction false} RemoveKeepsUnique(items: seq<Service>, id: int)
    requires UniqueIds(items)
    ensures UniqueIds(RemoveById(items, id))
    ensures forall j :: 0 <= j < |RemoveById(items, id)| ==> RemoveById(items, id)[j] in items
  {
    if items != [] {
      RemoveKeepsUnique(items[1..], id);
      var rest := RemoveById(items[1..], id);
      forall j | 0 <= j < |rest| ensures rest[j].id != items[0].id {
        assert rest[j] in items[1..];
        var m :| 0 <= m < |items[1..]| && items[1..][m] == rest[j];
        assert items[m + 1] == rest[j];
      }
    }
  }

  /** One more row merged the way the loop of `bulkUpdateServices` does it: the merge of one more row. */
  lemma BulkMergeStep(items: seq<Service>, rows: seq<SheetRow>, i: nat, cur: seq<Service>,
                      index: Option<nat>, next: seq<Service>)
    requires i < |rows| && cur == BulkMerge(items, rows[..i]) && index == FindIndex(cur, rows[i].id)
    requires next == if index.Some? then cur[index.value := RowToService(rows[i])] else cur
    ensures next == BulkMerge(items, rows[..i + 1])
  {
    assert next == MergeOne(cur, rows[i]);
    assert rows[..i + 1][..i] == rows[..i];
  }

  /** Lists with the same ids at the same positions keep ids unique and within a set of issued ids. */
  lemma SameIdsKeepIssued(a: seq<Service>, b: seq<Service>, issued: set<int>)
    requires |a| == |b| && forall j :: 0 <= j < |a| ==> a[j].id == b[j].id
    requires UniqueIds(a) && forall j :: 0 <= j < |a| ==> a[j].id in issued
    ensures UniqueIds(b) && forall j :: 0 <= j < |b| ==> b[j].id in issued
  {
    SameIdsKeepUnique(a, b);
  }

  /** Two lists with the same ids at the same positions are alike as to uniqueness. */
  lemma SameIdsKeepUnique(a: seq<Service>, b: seq<Service>)
    requires |a| == |b| && forall j :: 0 <= j < |a| ==> a[j].id == b[j].id
    ensures UniqueIds(a) ==> UniqueIds(b)
  {
  }

  // ---------------------------------------------------------------------
  // The mock backend as an object
  // ---------------------------------------------------------------------

  /**
   * `handleMockRequest` with its module-level state: the idea list and the
   * next id. `issued` records every id the list has ever held.
   */
  class MockBackend {
    var services: seq<Service>
    var nextId: int
    ghost var issued: set<int>

    /** Ids are unique, every id ever used lies below `nextId`, and all current ids were issued. */
    ghost predicate Valid()
      reads this
    {
      UniqueIds(services)
      && (forall j :: 0 <= j < |services| ==> services[j].id in issued)
      && (forall i :: i in issued ==> i < nextId)
    }

    /** The seeded list, with `nextId` one above the largest seeded id. */
    constructor()
      ensures Valid()
      ensures services == Seeds && nextId == MaxId(Seeds) + 1
    {
      SeedsNextId();
      SeedsUnique();
      var first := MaxId(Seeds) + 1;
      services := Seeds;
      nextId := first;
      issued := set j | 0 <= j < |Seeds| :: Seeds[j].id;
    }

    /** `getServices`: a copy of the list; nothing changes. */
    method GetAll() returns (r: MockReply)
      ensures r == Success(ServiceList(services))
    {
      r := Success(ServiceList(services));
    }

    /** `addService`: appends one idea with a never-used id, zero scores and zero revenue. */
    method Add(d: Draft, now: string) returns (r: MockReply)
      requires Valid()
      modifies this
      ensures Valid()
      ensures services == old(services) + [Created(d, old(nextId), now)]
      ensures nextId == old(nextId) + 1
      ensures r == Success(OneService(Created(d, old(nextId), now)))
      ensures old(nextId) !in old(issued)
      ensures forall j :: 0 <= j < |old(services)| ==> old(services)[j].id != old(nextId)
    {
      var created := Created(d, nextId, now);
      services := services + [created];
      issued := issued + {nextId};
      nextId := nextId + 1;
      r := Success(OneService(created));
    }

    /** `updateService`: the first entry with the row's id is replaced, or a not-found failure. */
    method Update(row: SheetRow) returns (r: MockReply)
      requires Valid()
      modifies this
      ensures Valid()
      ensures services == MergeOne(old(services), row)
      ensures nextId == old(nextId)
      ensures r == (if FindIndex(old(services), row.id).Some? then Success(OneService(RowToService(row)))
                    else Failure(NotFoundMessage(row.id)))
    {
      var index := FindIndex(services, row.id);
      if index.Some? {
        services := services[index.value := RowToService(row)];
        r := Success(OneService(RowToService(row)));
      } else {
        r := Failure(NotFoundMessage(row.id));
      }
    }

    /** `bulkUpdateServices`: merges every row whose id is known and counts every row. */
    method BulkUpdate(rows: seq<SheetRow>) returns (r: MockReply)
      requires Valid()
      modifies this`services
      ensures Valid()
      ensures services == BulkMerge(old(services), rows)
      ensures nextId == old(nextId)
      ensures r == Success(UpdatedCount(|rows|))
    {
      var i := 0;
      while i < |rows|
        invariant 0 <= i <= |rows|
        invariant services == BulkMerge(old(services), rows[..i])
      {
        var cur := services;
        var next := cur;
        var index := FindIndex(cur, rows[i].id);
        if index.Some? {
          next := next[index.value := RowToService(rows[i])];
        }
        BulkMergeStep(old(services), rows, i, cur, index, next);
        services := next;
        i := i + 1;
      }
      assert rows[..|rows|] == rows;
      SameIdsKeepIssued(old(services), services, issued);
      r := Success(UpdatedCount(|rows|));
    }

    /** `deleteService`: every entry with that id goes; it succeeds whether or not there was one. */
    method Delete(id: int) returns (r: MockReply)
      requires Valid()
      modifies this
      ensures Valid()
      ensures services == RemoveById(old(services), id)
      ensures nextId == old(nextId)
      ensures r == Success(DeletedId(id))
    {
      RemoveKeepsUnique(services, id);
      services := RemoveById(services, id);
      r := Success(DeletedId(id));
    }

    /** `handleMockRequest`: dispatches on the action; every outcome is an envelope. */
    method Handle(req: Request, now: string, roll: (nat, nat) -> nat) returns (r: MockReply)
      requires Valid()
      modifies this
      ensures Valid()
      ensures services == NextServices(old(services), old(nextId), req, now)
      ensures nextId == NextId(old(nextId), req)
      ensures r == Reply(old(services), old(nextId), req, now, roll)
    {
      match req {
        case GetServices =>
          r := GetAll();
        case AddService(d) =>
          r := Add(d, now);
        case UpdateService(row) =>
          r := Update(row);
        case BulkUpdateServices(rows) =>
          r := BulkUpdate(rows);
        case DeleteService(id) =>
          r := Delete(id);
        case _ =>
          r := Reply(services, nextId, req, now, roll);
      }
    }
  }

  // ---------------------------------------------------------------------
  // Envelope unwrapping
  // ---------------------------------------------------------------------

  /** The prefix of every error `apiRequest` raises on the HTTP path. */
  const CommunicationPrefix: string :=
    "Não foi possível se comunicar com o servidor. Verifique sua conexão. Detalhes: "

  /**
   * What came back over HTTP: the fetch itself failed, the status was not
   * ok, the body was not JSON, or a parsed envelope (`success` may be
   * missing, `error` may be missing).
   */
  datatype HttpOutcome<T> =
    | FetchFailed(message: string)
    | NotOk(status: int, statusText: string, body: string)
    | BodyNotJson(message: string)
    | Envelope(success: Option<bool>, data: T, error: Option<string>)

  /** `s || fallback` for an optional string. */
  function OrDefault(s: Option<string>, fallback: string): (r: string)
    ensures fallback != "" ==> r != ""
  {
    if s.Some? && s.value != "" then s.value else fallback
  }

  /** The mock path of `apiRequest`: the data, or the envelope's error (or a default). */
  function UnwrapMock(reply: MockReply): (r: Result<Data, string>)
    ensures r.Ok? <==> reply.Success?
    ensures r.Ok? ==> r.value == reply.data
    ensures r.Err? ==> r.error != ""
    ensures reply.Failure? && reply.error != "" ==> r == Err(reply.error)
  {
    match reply
    case Success(d) => Ok(d)
    case Failure(e) => Err(OrDefault(Some(e), "Ocorreu um erro no mock da API."))
  }

  /**
   * The HTTP path of `apiRequest`: only an envelope whose `success` is not
   * `false` yields its data; every other outcome is an error carrying the
   * communication prefix and the underlying reason.
   */
  function UnwrapHttp<T>(resp: HttpOutcome<T>): (r: Result<T, string>)
    ensures r.Ok? <==> resp.Envelope? && resp.success != Some(false)
    ensures r.Ok? ==> r.value == resp.data
    ensures r.Err? ==> CommunicationPrefix <= r.error
  {
    match resp
    case FetchFailed(m) => Err(CommunicationPrefix + m)
    case NotOk(status, text, body) =>
      Err(CommunicationPrefix + "Erro na API: " + IntToString(status) + " " + text + " - " + body)
    case BodyNotJson(m) => Err(CommunicationPrefix + m)
    case Envelope(success, data, error) =>
      if success == Some(false) then Err(CommunicationPrefix + OrDefault(error, "Ocorreu um erro desconhecido na API."))
      else Ok(data)
  }

  /** The detail after the prefix is the reason: the fetch error's own message, for one. */
  lemma HttpErrorKeepsReason<T>(resp: HttpOutcome<T>)
    requires resp.FetchFailed? || resp.BodyNotJson?
    ensures UnwrapHttp(resp) == Err(CommunicationPrefix + resp.message)
    ensures Contains(UnwrapHttp(resp).error, resp.message)
  {
    ContainsInfix(CommunicationPrefix, resp.message, "");
    assert CommunicationPrefix + resp.message + "" == CommunicationPrefix + resp.message;
  }

  /** In mock mode an update of an absent id is raised as an error that says "não encontrado". */
  lemma MockUpdateOfAbsentIdRaises(items: seq<Service>, nextId: int, row: SheetRow, now: string,
                                   roll: (nat, nat) -> nat)
    requires FindIndex(items, row.id).None?
    ensures var r := UnwrapMock(Reply(items, nextId, UpdateService(row), now, roll));
            r.Err? && Contains(r.error, "não encontrado")
  {
    var reply := Reply(items, nextId, UpdateService(row), now, roll);
    assert reply == Failure(NotFoundMessage(row.id));
    assert |NotFoundMessage(row.id)| > 0;
    NotFoundMentionsMissing(row.id);
  }

  /**
   * `apiRequest`: in mock mode the mock handles the request and its envelope
   * is unwrapped; otherwise the abstract HTTP outcome is unwrapped.
   */
  method ApiRequest(backend: MockBackend, url: string, req: Request, now: string,
                    roll: (nat, nat) -> nat, http: HttpOutcome<Data>) returns (r: Result<Data, string>)
    requires backend.Valid()
    modifies backend
    ensures backend.Valid()
    ensures UsesMock(url) ==> r == UnwrapMock(Reply(old(backend.services), old(backend.nextId), req, now, roll))
    ensures UsesMock(url) ==> backend.services == NextServices(old(backend.services), old(backend.nextId), req, now)
                              && backend.nextId == NextId(old(backend.nextId), req)
    ensures !UsesMock(url) ==> r == UnwrapHttp(http) && unchanged(backend)
  {
    if UsesMock(url) {
      var reply := backend.Handle(req, now, roll);
      r := UnwrapMock(reply);
    } else {
      r := UnwrapHttp(http);
    }
  }

  /** `updateServiceInSheet` sends the flattened idea. */
  function UpdateRequest(s: Service): (req: Request)
    ensures req.UpdateService? && req.row == ServiceToSheetData(s) && req.row.id == s.id
    ensures Complete(s) ==> RowToService(req.row) == s
  {
    var row := ServiceToSheetData(s);
    assert Complete(s) ==> RowToService(row) == s by {
      if Complete(s) {
        ServiceRoundTrip(s);
      }
    }
    UpdateService(row)
  }

  /** `bulkUpdateServicesInSheet` sends every idea flattened, in order. */
  function BulkRequest(ss: seq<Service>): (req: Request)
    ensures req.BulkUpdateServices? && |req.rows| == |ss|
    ensures forall i :: 0 <= i < |ss| ==> req.rows[i] == ServiceToSheetData(ss[i])
  {
    BulkUpdateServices(seq(|ss|, i requires 0 <= i < |ss| => ServiceToSheetData(ss[i])))
  }
}

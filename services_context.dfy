/**
 * The client-side store of ideas. It holds the authoritative list and
 * changes it only after the backend has confirmed a mutation; it also
 * carries the loading flags, the application error and the one visible
 * notification. Every backend call is an input: the reply the backend gave.
 */
module ServicesContext {
  import opened Wrappers
  import opened Ideas
  import opened Lists
  import CsvExport

  datatype NoticeKind = SuccessNotice | ErrorNotice | InfoNotice

  /** A notification; `id` is the stamp taken when it was shown. */
  datatype Notification = Notification(message: string, kind: NoticeKind, id: nat)

  /** A dashboard idea seen as a raw row (its scores are a list). */
  function Forget(s: Service): RawService
  {
    Idea(s.id, s.service, s.need, s.cluster, s.businessModel, s.targetAudience, s.status,
      s.creatorName, s.creationDate, ScoreList(s.scores), s.revenueEstimate)
  }

  /**
   * The load-time normalisation: a list of scores is kept whatever its
   * length; anything else becomes one zero per criterion. All other fields
   * are kept.
   */
  function Sanitize(raw: RawService): (s: Service)
    ensures raw.scores.ScoreList? ==> Forget(s) == raw
    ensures raw.scores.NotAList? ==> Forget(s) == raw.(scores := ScoreList(Zeros(CriteriaCount)))
  {
    Idea(raw.id, raw.service, raw.need, raw.cluster, raw.businessModel, raw.targetAudience,
      raw.status, raw.creatorName, raw.creationDate,
      if raw.scores.ScoreList? then raw.scores.values else Zeros(CriteriaCount),
      raw.revenueEstimate)
  }

  /** Sanitising an idea that is already well formed gives it back unchanged. */
  lemma SanitizeForget(s: Service)
    ensures Sanitize(Forget(s)) == s
  {
  }

  /** `sheetServices.map(sanitize)`. */
  function SanitizeAll(raws: seq<RawService>): (r: seq<Service>)
    ensures |r| == |raws|
    ensures forall i :: 0 <= i < |raws| ==> r[i] == Sanitize(raws[i])
  {
    if raws == [] then [] else [Sanitize(raws[0])] + SanitizeAll(raws[1..])
  }

  /**
   * `new Map(rankings.map(r => [r.id, r]))`: one entry per ranked id; when
   * an id is ranked twice the later ranking wins.
   */
  function RankingMap(rs: seq<Ranking>): (m: map<int, seq<int>>)
    ensures forall id :: id in m <==> exists i :: 0 <= i < |rs| && rs[i].id == id
    ensures forall i :: 0 <= i < |rs| && (forall j :: i < j < |rs| ==> rs[j].id != rs[i].id)
              ==> rs[i].id in m && m[rs[i].id] == rs[i].scores
  {
    if rs == [] then map[]
    else
      var init := RankingMap(rs[..|rs| - 1]);
      var last := rs[|rs| - 1];
      RankingMapStep(rs, init);
      init[last.id := last.scores]
  }

  lemma RankingMapStep(rs: seq<Ranking>, init: map<int, seq<int>>)
    requires rs != []
    requires var p := rs[..|rs| - 1];
             (forall id :: id in init <==> exists i :: 0 <= i < |p| && p[i].id == id)
             && (forall i :: 0 <= i < |p| && (forall j :: i < j < |p| ==> p[j].id != p[i].id)
                   ==> p[i].id in init && init[p[i].id] == p[i].scores)
    ensures var m := init[rs[|rs| - 1].id := rs[|rs| - 1].scores];
            (forall id :: id in m <==> exists i :: 0 <= i < |rs| && rs[i].id == id)
            && (forall i :: 0 <= i < |rs| && (forall j :: i < j < |rs| ==> rs[j].id != rs[i].id)
                  ==> rs[i].id in m && m[rs[i].id] == rs[i].scores)
  {
    var p := rs[..|rs| - 1];
    var last := rs[|rs| - 1];
    var m := init[last.id := last.scores];
    forall id ensures id in m <==> exists i :: 0 <= i < |rs| && rs[i].id == id {
      if id in init {
        var i :| 0 <= i < |p| && p[i].id == id;
        assert rs[i].id == id;
      }
      if exists i :: 0 <= i < |rs| && rs[i].id == id {
        var i :| 0 <= i < |rs| && rs[i].id == id;
        if i < |p| {
          assert p[i].id == id;
        }
      }
    }
    forall i | 0 <= i < |rs| && (forall j :: i < j < |rs| ==> rs[j].id != rs[i].id)
      ensures rs[i].id in m && m[rs[i].id] == rs[i].scores
    {
      if i < |p| {
        assert rs[i] == p[i];
        assert forall j :: i < j < |p| ==> p[j] == rs[j];
      }
    }
  }

  /** Each idea with a ranking gets that ranking's scores; nothing else changes. */
  function ApplyRankings(items: seq<Service>, m: map<int, seq<int>>): (r: seq<Service>)
    ensures |r| == |items|
    ensures forall i :: 0 <= i < |items| && items[i].id in m ==> r[i] == items[i].(scores := m[items[i].id])
    ensures forall i :: 0 <= i < |items| && items[i].id !in m ==> r[i] == items[i]
  {
    seq(|items|, i requires 0 <= i < |items| =>
      if items[i].id in m then items[i].(scores := m[items[i].id]) else items[i])
  }

  /** The ideas handed to the bulk save: exactly those with a ranking. */
  function RankedSubset(items: seq<Service>, m: map<int, seq<int>>): (r: seq<Service>)
    ensures forall s :: s in r <==> s in items && s.id in m
  {
    Filter(items, (s: Service) => s.id in m)
  }

  /** The ranked subset holds each idea whose id was ranked as often as the list does, and no other. */
  lemma RankedSubsetCounts(items: seq<Service>, m: map<int, seq<int>>)
    ensures forall s :: multiset(RankedSubset(items, m))[s] == if s.id in m then multiset(items)[s] else 0
  {
    FilterCounts(items, (s: Service) => s.id in m);
  }

  /** The ranked subset keeps list order: that of two lists one after the other is that of their concatenation. */
  lemma RankedSubsetAppend(a: seq<Service>, b: seq<Service>, m: map<int, seq<int>>)
    ensures RankedSubset(a + b, m) == RankedSubset(a, m) + RankedSubset(b, m)
  {
    FilterAppend(a, b, (s: Service) => s.id in m);
  }

  /** After a ranking, the ranked subset carries the new scores of every ranked idea. */
  lemma RankedSubsetHasNewScores(items: seq<Service>, rs: seq<Ranking>)
    ensures var m := RankingMap(rs);
            forall s :: s in RankedSubset(ApplyRankings(items, m), m) ==> s.scores == m[s.id]
  {
    var m := RankingMap(rs);
    var updated := ApplyRankings(items, m);
    forall s | s in RankedSubset(updated, m) ensures s.scores == m[s.id] {
      var i :| 0 <= i < |updated| && updated[i] == s;
    }
  }

  /** An idea whose id nobody ranked comes out of a ranking unchanged and is not saved. */
  lemma UnrankedUntouched(items: seq<Service>, rs: seq<Ranking>, i: nat)
    requires i < |items| && forall r :: r in rs ==> r.id != items[i].id
    ensures ApplyRankings(items, RankingMap(rs))[i] == items[i]
    ensures items[i] !in RankedSubset(ApplyRankings(items, RankingMap(rs)), RankingMap(rs))
  {
    var x := items[i].id;
    assert x !in RankingMap(rs);
  }

  /** `err.message || default` for a failed load. */
  function LoadErrorText(e: Thrown): (r: string)
    ensures r != ""
    ensures e.ErrorObject? && e.message != "" ==> r == e.message
  {
    if e.ErrorObject? && e.message != "" then e.message
    else "Ocorreu um erro desconhecido ao carregar os dados."
  }

  /** `err instanceof Error ? err.message : default` for a failed ranking. */
  function RankingErrorText(e: Thrown): (r: string)
    ensures e.ErrorObject? ==> r == e.message
    ensures e.OtherValue? ==> r == "Ocorreu um erro ao realizar a análise ou salvar."
  {
    if e.ErrorObject? then e.message else "Ocorreu um erro ao realizar a análise ou salvar."
  }

  const InitialLoadingMessage: string := "Conectando ao banco de ideias..."
  const RefreshLoadingMessage: string := "Atualizando ideias da planilha..."

  /** `ServicesProvider`'s state. `now` is the clock that stamps notifications. */
  class Store {
    var services: seq<Service>
    var isLoading: bool
    var isRanking: bool
    var isRefreshing: bool
    var loadingMessage: string
    var appError: Option<string>
    var notification: Option<Notification>
    var now: nat

    /** The visible notification was stamped before the current time. */
    ghost predicate Valid()
      reads this
    {
      notification.Some? ==> notification.value.id < now
    }

    /** The initial state: empty list, loading, no error, no notification. */
    constructor(clock: nat)
      ensures Valid()
      ensures services == [] && isLoading && !isRanking && !isRefreshing
      ensures loadingMessage == InitialLoadingMessage && appError.None? && notification.None?
      ensures now == clock
    {
      services := [];
      isLoading := true;
      isRanking := false;
      isRefreshing := false;
      loadingMessage := InitialLoadingMessage;
      appError := None;
      notification := None;
      now := clock;
    }

    /** The `isLoading` the provider exposes: loading, but neither ranking nor refreshing. */
    function ExposedIsLoading(): bool
      reads this
    {
      isLoading && !isRanking && !isRefreshing
    }

    /** `showNotification`: the new notification replaces whatever was shown. */
    method ShowNotification(message: string, kind: NoticeKind) returns (id: nat)
      requires Valid()
      modifies this`notification, this`now
      ensures Valid()
      ensures id == old(now) && now > old(now)
      ensures notification == Some(Notification(message, kind, id))
      ensures old(notification).Some? ==> old(notification).value.id < id
    {
      id := now;
      notification := Some(Notification(message, kind, id));
      now := now + 1;
    }

    /**
     * The expiry timer of notification `id`: it clears the notification only
     * if that very notification is still shown, so a newer one survives.
     */
    method ExpireNotification(id: nat)
      modifies this`notification
      ensures old(notification).Some? && old(notification).value.id == id ==> notification.None?
      ensures !(old(notification).Some? && old(notification).value.id == id) ==> notification == old(notification)
    {
      if notification.Some? && notification.value.id == id {
        notification := None;
      }
    }

    /**
     * `fetchData`: on success the sanitised rows replace the list; on
     * failure the list stays and the error is recorded. Loading ends false.
     */
    method FetchData(message: string, reply: Result<seq<RawService>, Thrown>)
      modifies this`isLoading, this`loadingMessage, this`appError, this`services
      ensures !isLoading && loadingMessage == message
      ensures reply.Ok? ==> services == SanitizeAll(reply.value) && appError.None?
      ensures reply.Err? ==> services == old(services) && appError == Some(LoadErrorText(reply.error))
    {
      isLoading := true;
      loadingMessage := message;
      appError := None;
      match reply {
        case Ok(raws) =>
          services := SanitizeAll(raws);
        case Err(e) =>
          appError := Some(LoadErrorText(e));
      }
      isLoading := false;
    }

    /** `refreshData`: reloads, then announces success whether or not the load worked. */
    method RefreshData(reply: Result<seq<RawService>, Thrown>)
      requires Valid()
      modifies this
      ensures Valid()
      ensures !isRefreshing && !isLoading && isRanking == old(isRanking)
      ensures reply.Ok? ==> services == SanitizeAll(reply.value) && appError.None?
      ensures reply.Err? ==> services == old(services) && appError == Some(LoadErrorText(reply.error))
      ensures notification == Some(Notification("Dados sincronizados com sucesso!", SuccessNotice, old(now)))
    {
      isRefreshing := true;
      loadingMessage := RefreshLoadingMessage;
      FetchData(RefreshLoadingMessage, reply);
      var _ := ShowNotification("Dados sincronizados com sucesso!", SuccessNotice);
      isRefreshing := false;
    }

    /**
     * `addService`: the backend's idea is appended only once the backend
     * confirmed it; a failure leaves the list, notifies and is rethrown.
     */
    method AddService(reply: Result<RawService, Thrown>) returns (thrown: Option<Thrown>)
      requires Valid()
      modifies this`services, this`notification, this`now
      ensures Valid()
      ensures reply.Ok? ==>
        (services == old(services) + [Sanitize(reply.value)] && thrown.None?
         && notification == Some(Notification("Ideia adicionada com sucesso!", SuccessNotice, old(now))))
      ensures reply.Err? ==>
        (services == old(services) && thrown == Some(reply.error)
         && notification == Some(Notification("Falha ao adicionar a ideia: " + ThrownText(reply.error), ErrorNotice, old(now))))
    {
      match reply {
        case Ok(raw) =>
          services := services + [Sanitize(raw)];
          var _ := ShowNotification("Ideia adicionada com sucesso!", SuccessNotice);
          thrown := None;
        case Err(e) =>
          var _ := ShowNotification("Falha ao adicionar a ideia: " + ThrownText(e), ErrorNotice);
          thrown := Some(e);
      }
    }

    /** `updateService`: after confirmation every entry with that id becomes the new idea. */
    method UpdateService(updated: Service, failure: Option<Thrown>) returns (thrown: Option<Thrown>)
      requires Valid()
      modifies this`services, this`notification, this`now
      ensures Valid()
      ensures thrown == failure
      ensures failure.None? ==>
        (services == ReplaceById(old(services), updated)
         && notification == Some(Notification("Ideia salva com sucesso!", SuccessNotice, old(now))))
      ensures failure.Some? ==>
        (services == old(services)
         && notification == Some(Notification("Falha ao salvar a ideia: " + ThrownText(failure.value), ErrorNotice, old(now))))
    {
      if failure.None? {
        services := ReplaceById(services, updated);
        var _ := ShowNotification("Ideia salva com sucesso!", SuccessNotice);
      } else {
        var _ := ShowNotification("Falha ao salvar a ideia: " + ThrownText(failure.value), ErrorNotice);
      }
      thrown := failure;
    }

    /** `deleteService`: after confirmation every entry with that id is removed. */
    method DeleteService(id: int, failure: Option<Thrown>) returns (thrown: Option<Thrown>)
      requires Valid()
      modifies this`services, this`notification, this`now
      ensures Valid()
      ensures thrown == failure
      ensures failure.None? ==>
        (services == RemoveById(old(services), id)
         && notification == Some(Notification("Ideia excluída com sucesso.", SuccessNotice, old(now))))
      ensures failure.Some? ==>
        (services == old(services)
         && notification == Some(Notification("Falha ao excluir a ideia: " + ThrownText(failure.value), ErrorNotice, old(now))))
    {
      if failure.None? {
        services := RemoveById(services, id);
        var _ := ShowNotification("Ideia excluída com sucesso.", SuccessNotice);
      } else {
        var _ := ShowNotification("Falha ao excluir a ideia: " + ThrownText(failure.value), ErrorNotice);
      }
      thrown := failure;
    }

    /**
     * The part of `applyAIRanking` after the AI answered: the rankings are
     * merged into the list, and the ranked subset, when not empty, is handed
     * to the bulk save. A failed save is reported in `appError` but the merge
     * stays.
     */
    method MergeAndSave(rankings: seq<Ranking>, saveFailure: Option<Thrown>) returns (saved: Option<seq<Service>>)
      requires Valid()
      modifies this`services, this`notification, this`now, this`loadingMessage, this`appError
      ensures Valid()
      ensures services == ApplyRankings(old(services), RankingMap(rankings))
      ensures saved.Some? <==> RankedSubset(services, RankingMap(rankings)) != []
      ensures saved.Some? ==> saved.value == RankedSubset(services, RankingMap(rankings))
      ensures saved.Some? && saveFailure.Some? ==>
        (appError == Some(RankingErrorText(saveFailure.value)) && notification.Some?
         && notification.value.kind == ErrorNotice)
      ensures saved.None? || saveFailure.None? ==>
        (appError == old(appError)
         && notification.Some? && notification.value.message == "Ranking salvo na planilha com sucesso!")
    {
      var m := RankingMap(rankings);
      var updated := ApplyRankings(services, m);
      var subset := RankedSubset(updated, m);
      services := updated;
      var _ := ShowNotification("Análise da IA concluída. Salvando...", InfoNotice);
      loadingMessage := "Salvando ranking na planilha...";
      saved := None;
      if subset != [] {
        saved := Some(subset);
        if saveFailure.Some? {
          var message := RankingErrorText(saveFailure.value);
          var _ := ShowNotification(message, ErrorNotice);
          appError := Some(message);
          return;
        }
      }
      var _ := ShowNotification("Ranking salvo na planilha com sucesso!", SuccessNotice);
    }

    /**
     * `applyAIRanking`. With no ideas nothing is asked of the AI and only an
     * info notification appears. Otherwise the AI's rankings are merged and
     * saved as `MergeAndSave` says; an AI failure leaves the list, sets
     * `appError` and shows the same text as an error notification. Nothing is rethrown, and ranking ends false.
     */
    method ApplyAIRanking(aiReply: Result<seq<Ranking>, Thrown>, saveFailure: Option<Thrown>)
      returns (aiCalled: bool, saved: Option<seq<Service>>)
      requires Valid()
      modifies this`services, this`notification, this`now, this`loadingMessage, this`appError, this`isRanking
      ensures Valid()
      ensures aiCalled <==> old(services) != []
      ensures aiCalled ==> !isRanking
      ensures !aiCalled ==> isRanking == old(isRanking)
      ensures !aiCalled ==>
        (saved.None? && services == old(services) && appError == old(appError)
         && notification == Some(Notification("Não há ideias para analisar.", InfoNotice, old(now))))
      ensures aiCalled && aiReply.Err? ==>
        (services == old(services) && saved.None? && appError == Some(RankingErrorText(aiReply.error))
         && notification == Some(Notification(RankingErrorText(aiReply.error), ErrorNotice, old(now))))
      ensures aiCalled && aiReply.Ok? ==>
        (services == ApplyRankings(old(services), RankingMap(aiReply.value))
         && (saved.Some? <==> RankedSubset(services, RankingMap(aiReply.value)) != [])
         && (saved.Some? ==> saved.value == RankedSubset(services, RankingMap(aiReply.value))))
      ensures aiCalled && aiReply.Ok? && saved.Some? && saveFailure.Some? ==>
        (appError == Some(RankingErrorText(saveFailure.value)) && notification.Some?
         && notification.value.kind == ErrorNotice)
      ensures aiCalled && aiReply.Ok? && (saved.None? || saveFailure.None?) ==>
        (appError == old(appError)
         && notification.Some? && notification.value.message == "Ranking salvo na planilha com sucesso!")
    {
      saved := None;
      if services == [] {
        var _ := ShowNotification("Não há ideias para analisar.", InfoNotice);
        aiCalled := false;
        return;
      }
      isRanking := true;
      loadingMessage := "A IA está avaliando as ideias...";
      aiCalled := true;
      match aiReply {
        case Err(e) =>
          var message := RankingErrorText(e);
          var _ := ShowNotification(message, ErrorNotice);
          appError := Some(message);
        case Ok(rankings) =>
          saved := MergeAndSave(rankings, saveFailure);
      }
      isRanking := false;
    }

    /**
     * `downloadCSV`: with no ideas only an info notification; otherwise the
     * file text for the current list, and a success notification.
     */
    method DownloadCSV() returns (content: Option<string>)
      requires Valid()
      modifies this`notification, this`now
      ensures Valid()
      ensures services == [] ==>
        (content.None? && notification == Some(Notification("Não há dados para baixar.", InfoNotice, old(now))))
      ensures services != [] ==>
        (content == Some(CsvExport.CsvContent(services))
         && notification == Some(Notification("Download da planilha iniciado.", SuccessNotice, old(now))))
    {
      if services == [] {
        var _ := ShowNotification("Não há dados para baixar.", InfoNotice);
        content := None;
        return;
      }
      var _ := ShowNotification("Download da planilha iniciado.", SuccessNotice);
      content := Some(CsvExport.CsvContent(services));
    }
  }
}

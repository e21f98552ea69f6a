/**
 * The prioritisation view: each idea with the total of its scores, ranked
 * by that total, a coloured band per total, and the editable ranking table
 * that keeps its own copy of the rows and a per-cell saving flag.
 */
module Prioritization {
  import opened Wrappers
  import opened Ideas
  import opened Lists
  import ServiceExplorer

  /** The badge shown for a total: the band's text and its colour classes. */
  datatype Badge = Badge(text: string, color: string)

  /**
   * `getClassification`: the same thresholds as the explorer's bands, each
   * band with its own colour.
   */
  function Classification(score: int): (b: Badge)
    ensures b.text == ServiceExplorer.ClassificationText(score)
    ensures b.color == "bg-green-600 text-white" <==> b.text == "Altíssima"
    ensures b.color == "bg-red-500 text-white" <==> b.text == "Baixa"
  {
    if score >= 21 then Badge("Altíssima", "bg-green-600 text-white")
    else if score >= 16 then Badge("Alta", "bg-blue-500 text-white")
    else if score >= 11 then Badge("Média", "bg-yellow-400 text-gray-800")
    else Badge("Baixa", "bg-red-500 text-white")
  }

  /** An idea together with the total of its scores. */
  datatype RankedRow = RankedRow(service: Service, total: int)

  function RowTotal(row: RankedRow): int
  {
    row.total
  }

  /** `services.map(service => ({ ...service, total }))`. */
  function WithTotals(services: seq<Service>): (r: seq<RankedRow>)
    ensures |r| == |services|
    ensures forall k :: 0 <= k < |services| ==> r[k] == RankedRow(services[k], Sum(services[k].scores))
  {
    seq(|services|, k requires 0 <= k < |services| => RankedRow(services[k], Sum(services[k].scores)))
  }

  /** The total of an idea's scores, the key the ranking sorts on. */
  function Total(s: Service): int
  {
    Sum(s.scores)
  }

  /** The ideas of a list of ranked rows, in order. */
  function Services(rows: seq<RankedRow>): (r: seq<Service>)
    ensures |r| == |rows|
    ensures forall k :: 0 <= k < |rows| ==> r[k] == rows[k].service
  {
    seq(|rows|, k requires 0 <= k < |rows| => rows[k].service)
  }

  /**
   * `combinedData`: a permutation of the ideas, each with the sum of its
   * scores as its total, ordered by non-increasing total.
   */
  function CombinedData(services: seq<Service>): (r: seq<RankedRow>)
    ensures |r| == |services|
    ensures multiset(Services(r)) == multiset(services)
    ensures forall k :: 0 <= k < |r| ==> r[k].total == Sum(r[k].service.scores)
    ensures SortedDescBy(r, RowTotal)
  {
    var sorted := SortDescBy(services, Total);
    var r := WithTotals(sorted);
    assert Services(r) == sorted;
    r
  }

  /** Every idea appears in the ranking, and the ranking holds nothing else. */
  lemma RankingCoversIdeas(services: seq<Service>, s: Service)
    ensures s in services <==> exists k :: 0 <= k < |services| && CombinedData(services)[k].service == s
  {
    var r := CombinedData(services);
    assert s in services <==> s in multiset(Services(r));
    if s in Services(r) {
      var k :| 0 <= k < |r| && Services(r)[k] == s;
      assert r[k].service == s;
    }
  }

  /** `Math.max(0, Math.min(5, value))`: a score typed in the table, brought into 0..5. */
  function Clamp(value: int): (r: int)
    ensures 0 <= r <= 5
    ensures 0 <= value <= 5 ==> r == value
    ensures value < 0 ==> r == 0
    ensures value > 5 ==> r == 5
  {
    if value < 0 then 0 else if value > 5 then 5 else value
  }

  /** A cell of the table: the score of criterion `index` (`score_<index>`) or the revenue estimate. */
  datatype Field = ScoreField(index: nat) | RevenueField

  /** The rows carrying `id` each have a score at `index`, as the table's own cells guarantee. */
  predicate InRange(rows: seq<Service>, id: int, field: Field)
  {
    field.ScoreField? ==> forall k :: 0 <= k < |rows| && rows[k].id == id ==> field.index < |rows[k].scores|
  }

  /** One row after the cell `field` was set to `value`. */
  function EditRow(item: Service, field: Field, value: int): Service
    requires field.ScoreField? ==> field.index < |item.scores|
  {
    match field
    case ScoreField(i) => item.(scores := item.scores[i := value])
    case RevenueField => item.(revenueEstimate := Some(value))
  }

  /**
   * `handleFieldChange`'s map: rows with another id are kept; in a row with
   * `id`, a score cell changes only that score and the revenue cell only
   * the revenue estimate.
   */
  function EditField(rows: seq<Service>, id: int, field: Field, value: int): (r: seq<Service>)
    requires InRange(rows, id, field)
    ensures |r| == |rows|
    ensures forall k :: 0 <= k < |rows| && rows[k].id != id ==> r[k] == rows[k]
    ensures forall k :: 0 <= k < |rows| && rows[k].id == id && field.ScoreField? ==> (
      && |r[k].scores| == |rows[k].scores|
      && r[k].scores[field.index] == value
      && (forall j :: 0 <= j < |rows[k].scores| && j != field.index ==> r[k].scores[j] == rows[k].scores[j])
      && r[k] == rows[k].(scores := r[k].scores))
    ensures forall k :: 0 <= k < |rows| && rows[k].id == id && field.RevenueField? ==>
      r[k] == rows[k].(revenueEstimate := Some(value))
  {
    seq(|rows|, k requires 0 <= k < |rows| => if rows[k].id == id then EditRow(rows[k], field, value) else rows[k])
  }

  /** Setting the same cell twice keeps only the second value. */
  lemma LastEditWins(rows: seq<Service>, id: int, field: Field, v1: int, v2: int)
    requires InRange(rows, id, field)
    ensures InRange(EditField(rows, id, field, v1), id, field)
    ensures EditField(EditField(rows, id, field, v1), id, field, v2) == EditField(rows, id, field, v2)
  {
    var once := EditField(rows, id, field, v1);
    var twice := EditField(once, id, field, v2);
    var direct := EditField(rows, id, field, v2);
    forall k | 0 <= k < |rows| ensures twice[k] == direct[k] {
      if rows[k].id == id && field.ScoreField? {
        assert twice[k].scores == direct[k].scores;
      }
    }
  }

  /** Where a cell of the table is saved: the idea's id and the cell. */
  datatype CellKey = CellKey(id: int, field: Field)

  /** `RankingTable`: its own copy of the rows and a saving flag per cell. */
  class RankingTable {
    var localServices: seq<Service>
    var saving: map<CellKey, bool>

    /** The table starts from the ranked rows it is given, with nothing being saved. */
    constructor (data: seq<RankedRow>)
      ensures localServices == Services(data)
      ensures saving == map[]
    {
      localServices := Services(data);
      saving := map[];
    }

    /** The effect that copies new ranked rows in; the saving flags are kept. */
    method Sync(data: seq<RankedRow>)
      modifies this`localServices
      ensures localServices == Services(data)
    {
      localServices := Services(data);
    }

    /** `isSaving` for a cell: only a flag set to true counts. */
    function IsSaving(id: int, field: Field): bool
      reads this
    {
      CellKey(id, field) in saving && saving[CellKey(id, field)]
    }

    /** `handleFieldChange`: the cell's new value goes into the local rows only. */
    method FieldChange(id: int, field: Field, value: int)
      requires InRange(localServices, id, field)
      modifies this`localServices
      ensures localServices == EditField(old(localServices), id, field, value)
    {
      localServices := EditField(localServices, id, field, value);
    }

    /**
     * A score typed into a cell: `Math.max(0, Math.min(5, ...))` brings it
     * into 0..5 before `handleFieldChange`, so the stored score is a valid
     * grade and nothing but that cell changes.
     */
    method ScoreInput(id: int, index: nat, typed: int)
      requires InRange(localServices, id, ScoreField(index))
      modifies this`localServices
      ensures localServices == EditField(old(localServices), id, ScoreField(index), Clamp(typed))
      ensures forall k :: 0 <= k < |localServices| && localServices[k].id == id ==>
        index < |localServices[k].scores| && 0 <= localServices[k].scores[index] <= 5
      ensures 0 <= typed <= 5 ==> localServices == EditField(old(localServices), id, ScoreField(index), typed)
    {
      FieldChange(id, ScoreField(index), Clamp(typed));
    }

    /**
     * The first half of `handleUpdate`: an id not among the local rows does
     * nothing; otherwise the row to send is found and the cell is marked
     * as being saved.
     */
    method BeginUpdate(id: int, field: Field) returns (sent: Option<Service>)
      modifies this`saving
      ensures sent == FindById(localServices, id)
      ensures sent.Some? ==> saving == old(saving)[CellKey(id, field) := true] && IsSaving(id, field)
      ensures sent.None? ==> saving == old(saving)
    {
      sent := FindById(localServices, id);
      if sent.Some? {
        saving := saving[CellKey(id, field) := true];
      }
    }

    /**
     * The second half of `handleUpdate`: whether the save succeeded or
     * failed, the error is swallowed and the cell's flag is set to false.
     */
    method FinishUpdate(id: int, field: Field, outcome: Option<Thrown>)
      modifies this`saving
      ensures saving == old(saving)[CellKey(id, field) := false]
      ensures !IsSaving(id, field)
    {
      saving := saving[CellKey(id, field) := false];
    }

    /**
     * `handleStatusChange`: the row with `id` gets the new status in the
     * local rows before the save, and keeps it whether or not the save
     * fails; an unknown id does nothing. A failed save is passed on.
     */
    method StatusChange(id: int, status: Status, failure: Option<Thrown>) returns (sent: Option<Service>, thrown: Option<Thrown>)
      modifies this`localServices
      ensures FindById(old(localServices), id).None? ==> sent.None? && thrown.None? && localServices == old(localServices)
      ensures FindById(old(localServices), id).Some? ==> (
        && sent == Some(FindById(old(localServices), id).value.(status := Some(status)))
        && localServices == ReplaceById(old(localServices), sent.value)
        && thrown == failure)
    {
      var found := FindById(localServices, id);
      if found.None? {
        return None, None;
      }
      var updated := found.value.(status := Some(status));
      localServices := ReplaceById(localServices, updated);
      sent := Some(updated);
      thrown := failure;
    }
  }

  /** After a status change, every row with that id shows the new status, and no other row changed. */
  lemma StatusChangeShown(rows: seq<Service>, id: int, status: Status)
    requires FindById(rows, id).Some?
    ensures var r := ReplaceById(rows, FindById(rows, id).value.(status := Some(status)));
            |r| == |rows|
            && (forall k :: 0 <= k < |rows| && rows[k].id == id ==> r[k].status == Some(status))
            && (forall k :: 0 <= k < |rows| && rows[k].id != id ==> r[k] == rows[k])
  {
  }
}

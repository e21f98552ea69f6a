/**
 * The business-model classifier: free text typed by a user (or proposed by
 * the AI) is mapped onto one of six fixed categories. A text that already
 * is a category is kept; otherwise ordered keyword groups are tried on the
 * lower-cased text, and the first group with a hit decides; otherwise the
 * fallback category is used.
 */
module BusinessModel {
  import opened Wrappers
  import opened Text

  /** The six categories, in catalog order. */
  const Categories: seq<string> := [
    "Assinatura/Recorrência",
    "Pacote de Serviço",
    "Locação",
    "Consultoria",
    "Soluções B2B",
    "Financeiro/Benefício"
  ]

  /** The category of a text that no keyword matches. */
  const Fallback: string := "Pacote de Serviço"

  /** A category together with the lower-case keywords that select it. */
  datatype KeywordGroup = KeywordGroup(category: string, keywords: seq<string>)

  /** The keyword groups, in the order they are tried. */
  const KeywordGroups: seq<KeywordGroup> := [
    KeywordGroup("Assinatura/Recorrência", ["assinatura", "recorrência", "monitoramento"]),
    KeywordGroup("Pacote de Serviço", ["pacote", "instalação", "reparo", "limpeza",
      "serviço de instalação", "venda de produto", "armazenamento"]),
    KeywordGroup("Locação", ["locação", "crédito na compra"]),
    KeywordGroup("Consultoria", ["consultoria", "atendimento consultivo", "venda de cursos",
      "personal", "comissão", "experiência", "curadoria"]),
    KeywordGroup("Soluções B2B", ["b2b", "solução b2b", "pj"]),
    KeywordGroup("Financeiro/Benefício", ["financeiro", "indenização", "seguro", "oferta exclusiva"])
  ]

  /** `lower` includes at least one of the keywords. */
  predicate MentionsAny(lower: string, keywords: seq<string>)
  {
    exists k :: k in keywords && Contains(lower, k)
  }

  /** The index of the first group one of whose keywords `lower` includes. */
  function FirstGroup(lower: string, groups: seq<KeywordGroup>): (r: Option<nat>)
    ensures r.Some? ==> r.value < |groups| && MentionsAny(lower, groups[r.value].keywords)
    ensures r.Some? ==> forall j :: 0 <= j < r.value ==> !MentionsAny(lower, groups[j].keywords)
    ensures r.None? <==> forall j :: 0 <= j < |groups| ==> !MentionsAny(lower, groups[j].keywords)
  {
    if groups == [] then None
    else if MentionsAny(lower, groups[0].keywords) then Some(0)
    else match FirstGroup(lower, groups[1..])
      case Some(k) => Some(k + 1)
      case None => None
  }

  /**
   * `mapBusinessModel`: total, always a category, the identity on
   * categories, and the fallback when no keyword matches.
   */
  function MapBusinessModel(model: string): (r: string)
    ensures r in Categories
    ensures model in Categories ==> r == model
  {
    if model in Categories then model
    else match FirstGroup(ToLower(model), KeywordGroups)
      case Some(i) => KeywordGroups[i].category
      case None => Fallback
  }

  /** A text that is no category and matches no keyword group gives the fallback. */
  lemma NoKeywordGivesFallback(model: string)
    requires model !in Categories
    requires forall j :: 0 <= j < |KeywordGroups| ==> !MentionsAny(ToLower(model), KeywordGroups[j].keywords)
    ensures MapBusinessModel(model) == Fallback
  {
  }

  /** Mapping a mapped text again changes nothing. */
  lemma MapIdempotent(model: string)
    ensures MapBusinessModel(MapBusinessModel(model)) == MapBusinessModel(model)
  {
  }

  /**
   * Groups are tried in order: when group `i` is the first whose keywords
   * the lower-cased text includes, its category is the result.
   */
  lemma FirstMatchWins(model: string, i: nat)
    requires model !in Categories && i < |KeywordGroups|
    requires MentionsAny(ToLower(model), KeywordGroups[i].keywords)
    requires forall j :: 0 <= j < i ==> !MentionsAny(ToLower(model), KeywordGroups[j].keywords)
    ensures MapBusinessModel(model) == KeywordGroups[i].category
  {
    var f := FirstGroup(ToLower(model), KeywordGroups);
    assert f.Some?;
    assert f.value == i;
  }

  /**
   * Matching ignores case: a text including `t` anywhere, in any mix of
   * upper and lower case, where `t` lower-cases to a keyword of group `i`
   * and no earlier group matches, is classified in group `i`.
   */
  lemma CaseInsensitiveMatch(model: string, t: string, i: nat)
    requires model !in Categories && i < |KeywordGroups|
    requires Contains(model, t) && ToLower(t) in KeywordGroups[i].keywords
    requires forall j :: 0 <= j < i ==> !MentionsAny(ToLower(model), KeywordGroups[j].keywords)
    ensures MapBusinessModel(model) == KeywordGroups[i].category
  {
    ContainsLower(model, t);
    FirstMatchWins(model, i);
  }

  /**
   * Order of the groups: a text that mentions "assinatura", in any mix of
   * upper and lower case, and also "B2B" is a subscription, not a B2B
   * solution.
   */
  lemma SubscriptionBeatsB2B(pre: string, t: string, mid: string, post: string)
    requires ToLower(t) == "assinatura"
    requires pre + t + mid + "B2B" + post !in Categories
    ensures MapBusinessModel(pre + t + mid + "B2B" + post) == "Assinatura/Recorrência"
  {
    var model := pre + t + mid + "B2B" + post;
    assert model == pre + t + (mid + "B2B" + post);
    ContainsInfix(pre, t, mid + "B2B" + post);
    CaseInsensitiveMatch(model, t, 0);
  }
}

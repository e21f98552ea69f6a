/**
 * The idea generator form: a free-text idea is sent to the AI for its
 * benefit, audience and business model; the user picks a cluster and may
 * give a name; the completed idea is then added to the portfolio.
 */
module IdeaGenerator {
  import opened Wrappers
  import opened Text
  import opened Ideas
  import opened Lists
  import ServiceExplorer

  const EmptyIdeaError: string := "Por favor, insira uma ideia de serviço."
  const AnalysisError: string := "Ocorreu um erro ao analisar a ideia. Tente novamente."
  const IncompleteError: string := "Todos os campos devem ser preenchidos para adicionar a ideia."
  const AddError: string := "Falha ao adicionar a ideia. Verifique a conexão e tente novamente."

  /**
   * `uniqueClusters`: the non-empty clusters of the ideas, each once, in
   * code-point order.
   */
  function UniqueClusters(services: seq<Service>): (r: seq<string>)
    ensures forall c :: c in r <==> c != "" && c in ServiceExplorer.ClusterList(services)
    ensures SortedStrings(r) && NoDups(r)
  {
    var d := Distinct(Filter(ServiceExplorer.ClusterList(services), c => c != ""));
    SortStringsNoDups(d);
    SortStringsSameMembers(d);
    SortStrings(d)
  }

  /** The idea record `handleAddIdea` submits, built from the form. */
  function NewIdea(ideaInput: string, details: AIGeneratedIdea, cluster: string, creatorName: string): (d: Draft)
    ensures d.service == Trim(ideaInput) && d.creatorName == Some(Trim(creatorName))
    ensures d.need == details.beneficio && d.targetAudience == Some(details.publico)
    ensures d.businessModel == details.modelo && d.cluster == cluster
    ensures d.status == Some(Evaluation)
    ensures d.id.None? && d.creationDate.None? && d.scores.None? && d.revenueEstimate.None?
  {
    Draft(Trim(ideaInput), details.beneficio, cluster, details.modelo, Some(details.publico),
          Some(Evaluation), Some(Trim(creatorName)), None, None, None, None)
  }

  /** The cluster after an analysis: the chosen one, or else the first of the clusters, if any. */
  function Preselected(cluster: string, services: seq<Service>): string
  {
    if cluster == "" && UniqueClusters(services) != [] then UniqueClusters(services)[0] else cluster
  }

  /** The form's fields. */
  class Generator {
    var ideaInput: string
    var generatedDetails: Option<AIGeneratedIdea>
    var cluster: string
    var creatorName: string
    var isLoading: bool
    var isSubmitting: bool
    var error: string

    /** An empty form. */
    constructor ()
      ensures ideaInput == "" && generatedDetails.None? && cluster == "" && creatorName == ""
      ensures !isLoading && !isSubmitting && error == ""
    {
      ideaInput, generatedDetails, cluster, creatorName := "", None, "", "";
      isLoading, isSubmitting, error := false, false, "";
    }

    /** Typing into a field. */
    method Edit(idea: string, chosenCluster: string, name: string)
      modifies this`ideaInput, this`cluster, this`creatorName
      ensures ideaInput == idea && cluster == chosenCluster && creatorName == name
    {
      ideaInput, cluster, creatorName := idea, chosenCluster, name;
    }

    /**
     * Editing the benefit the AI suggested. The text boxes exist only while
     * there are details; the other two details stay as they were.
     */
    method EditBenefit(text: string)
      requires generatedDetails.Some?
      modifies this`generatedDetails
      ensures generatedDetails == Some(AIGeneratedIdea(text, old(generatedDetails).value.publico, old(generatedDetails).value.modelo))
    {
      generatedDetails := Some(generatedDetails.value.(beneficio := text));
    }

    /** Editing the target audience the AI suggested; the other two details stay. */
    method EditAudience(text: string)
      requires generatedDetails.Some?
      modifies this`generatedDetails
      ensures generatedDetails == Some(AIGeneratedIdea(old(generatedDetails).value.beneficio, text, old(generatedDetails).value.modelo))
    {
      generatedDetails := Some(generatedDetails.value.(publico := text));
    }

    /** Choosing another business model than the AI's suggestion; the other two details stay. */
    method EditModel(model: string)
      requires generatedDetails.Some?
      modifies this`generatedDetails
      ensures generatedDetails == Some(AIGeneratedIdea(old(generatedDetails).value.beneficio, old(generatedDetails).value.publico, model))
    {
      generatedDetails := Some(generatedDetails.value.(modelo := model));
    }

    /**
     * `handleAnalyzeIdea`: a blank idea only sets the error and calls nothing.
     * Otherwise the AI is called; its details replace the old ones (which
     * are dropped on failure, with an error) and, when no cluster is chosen
     * and some exists, the first cluster is preselected.
     */
    method AnalyzeIdea(services: seq<Service>, reply: Result<AIGeneratedIdea, Thrown>) returns (aiCalled: bool)
      modifies this`generatedDetails, this`cluster, this`isLoading, this`error
      ensures aiCalled <==> !Blank(old(ideaInput))
      ensures !aiCalled ==> (
        && error == EmptyIdeaError
        && generatedDetails == old(generatedDetails) && cluster == old(cluster) && isLoading == old(isLoading))
      ensures aiCalled ==> !isLoading
      ensures aiCalled && reply.Ok? ==> (
        && generatedDetails == Some(reply.value) && error == ""
        && cluster == Preselected(old(cluster), services))
      ensures aiCalled && reply.Err? ==> generatedDetails.None? && error == AnalysisError && cluster == old(cluster)
    {
      if Trim(ideaInput) == "" {
        error := EmptyIdeaError;
        return false;
      }
      error := "";
      isLoading := true;
      generatedDetails := None;
      aiCalled := true;
      match reply {
        case Ok(details) =>
          generatedDetails := Some(details);
          cluster := Preselected(cluster, services);
        case Err(_) =>
          error := AnalysisError;
      }
      isLoading := false;
    }


    /** What `handleAddIdea` checks before submitting. */
    predicate Complete()
      reads this
    {
      generatedDetails.Some? && !Blank(ideaInput) && cluster != ""
    }

    /**
     * `handleAddIdea`: an incomplete form only sets the error. Otherwise the
     * record is built and submitted; on success the form is emptied, on
     * failure it is kept and the error is set. Submitting ends either way.
     */
    method AddIdea(failure: Option<Thrown>) returns (submitted: Option<Draft>)
      modifies this`ideaInput, this`generatedDetails, this`cluster, this`creatorName, this`isSubmitting, this`error
      ensures submitted.Some? <==> old(Complete())
      ensures !old(Complete()) ==> (
        && error == IncompleteError
        && ideaInput == old(ideaInput) && generatedDetails == old(generatedDetails)
        && cluster == old(cluster) && creatorName == old(creatorName) && isSubmitting == old(isSubmitting))
      ensures old(Complete()) ==> (
        && submitted == Some(NewIdea(old(ideaInput), old(generatedDetails).value, old(cluster), old(creatorName)))
        && !isSubmitting)
      ensures old(Complete()) && failure.None? ==> (
        && ideaInput == "" && generatedDetails.None? && cluster == "" && creatorName == "" && error == "")
      ensures old(Complete()) && failure.Some? ==> (
        && ideaInput == old(ideaInput) && generatedDetails == old(generatedDetails)
        && cluster == old(cluster) && creatorName == old(creatorName) && error == AddError)
      ensures isLoading == old(isLoading)
    {
      if generatedDetails.None? || Trim(ideaInput) == "" || cluster == "" {
        error := IncompleteError;
        return None;
      }
      var draft := Submit(failure);
      submitted := Some(draft);
    }

    /**
     * The submitting part of `handleAddIdea`, on a complete form: the record
     * is built and sent; success empties the form, failure keeps it and sets
     * the error. Submitting ends either way.
     */
    method Submit(failure: Option<Thrown>) returns (draft: Draft)
      requires generatedDetails.Some?
      modifies this`ideaInput, this`generatedDetails, this`cluster, this`creatorName, this`isSubmitting, this`error
      ensures draft == NewIdea(old(ideaInput), old(generatedDetails).value, old(cluster), old(creatorName))
      ensures !isSubmitting
      ensures failure.None? ==> (
        && ideaInput == "" && generatedDetails.None? && cluster == "" && creatorName == "" && error == "")
      ensures failure.Some? ==> (
        && ideaInput == old(ideaInput) && generatedDetails == old(generatedDetails)
        && cluster == old(cluster) && creatorName == old(creatorName) && error == AddError)
    {
      draft := NewIdea(ideaInput, generatedDetails.value, cluster, creatorName);
      isSubmitting := true;
      error := "";
      if failure.None? {
        ideaInput, generatedDetails, cluster, creatorName, error := "", None, "", "", "";
      } else {
        error := AddError;
      }
      isSubmitting := false;
    }
  }

  /** A submitted idea is never blank: its text has something other than white space at both ends. */
  lemma SubmittedIdeaNotBlank(ideaInput: string, details: AIGeneratedIdea, cluster: string, creatorName: string)
    requires !Blank(ideaInput)
    ensures var d := NewIdea(ideaInput, details, cluster, creatorName);
            d.service != "" && !IsSpace(d.service[0]) && !IsSpace(d.service[|d.service| - 1])
  {
  }
}

/**
 * The classification of a failed backend call into one of three
 * situations, each shown with its own title: the server could not be
 * reached, the server answered with something that is not JSON, or any
 * other API error.
 */
module ErrorHandler {
  import opened Text
  import opened Ideas
  import SheetService

  /** The three situations, in the order they are tested. */
  datatype ErrorKind = ConnectionError | BackendResponseError | UnexpectedApiError

  /** The title shown for each situation. */
  function Title(k: ErrorKind): string
  {
    match k
    case ConnectionError => "Erro de Conexão com o Servidor"
    case BackendResponseError => "Erro na Resposta do Backend"
    case UnexpectedApiError => "Erro Inesperado na API"
  }

  /** The text of a failure the browser reports when the server is unreachable. */
  predicate ConnectionFailure(m: string)
  {
    Contains(m, "Failed to fetch") || Contains(m, "NetworkError")
  }

  /** The text of a failure to read the server's answer as JSON. */
  predicate NotJsonFailure(m: string)
  {
    Contains(ToLower(m), "unexpected token") || Contains(m, "JSON")
  }

  /**
   * `parseApiError`: the error's message (or the `String(...)` form of a
   * value that is not an error) is tested for an unreachable server first,
   * then for an answer that is not JSON, and is otherwise an API error.
   */
  function ParseApiError(e: Thrown): (k: ErrorKind)
    ensures k == ConnectionError <==> ConnectionFailure(ThrownText(e))
    ensures k == BackendResponseError <==> !ConnectionFailure(ThrownText(e)) && NotJsonFailure(ThrownText(e))
    ensures k == UnexpectedApiError <==> !ConnectionFailure(ThrownText(e)) && !NotJsonFailure(ThrownText(e))
  {
    var m := ThrownText(e);
    if ConnectionFailure(m) then ConnectionError
    else if NotJsonFailure(m) then BackendResponseError
    else UnexpectedApiError
  }

  /** The three titles are different, so the title alone tells the situation. */
  lemma TitlesDistinct(a: ErrorKind, b: ErrorKind)
    ensures Title(a) == Title(b) <==> a == b
  {
  }

  /**
   * The connection test comes first: a message naming both a failed fetch
   * and JSON is a connection error.
   */
  lemma ConnectionBeatsJson(pre: string, mid: string, post: string)
    ensures ParseApiError(ErrorObject(pre + "Failed to fetch" + mid + "JSON" + post)) == ConnectionError
  {
    var m := pre + "Failed to fetch" + mid + "JSON" + post;
    assert m == pre + "Failed to fetch" + (mid + "JSON" + post);
    ContainsInfix(pre, "Failed to fetch", mid + "JSON" + post);
  }

  /** 'unexpected token' is found in any case, 'JSON' only in capitals. */
  lemma UnexpectedTokenAnyCase(pre: string, t: string, post: string)
    requires ToLower(t) == "unexpected token"
    requires !ConnectionFailure(pre + t + post)
    ensures ParseApiError(OtherValue(pre + t + post)) == BackendResponseError
  {
    ContainsInfix(pre, t, post);
    ContainsLower(pre + t + post, t);
  }

  /**
   * A browser fetch failure reaches the handler behind the request
   * wrapper's prefix and is still recognised as a connection error.
   */
  lemma WrappedFetchFailureIsConnection<T>(resp: SheetService.HttpOutcome<T>)
    requires resp.FetchFailed? && Contains(resp.message, "Failed to fetch")
    ensures SheetService.UnwrapHttp(resp).Err?
    ensures ParseApiError(ErrorObject(SheetService.UnwrapHttp(resp).error)) == ConnectionError
  {
    SheetService.HttpErrorKeepsReason(resp);
    ContainsAfter(SheetService.CommunicationPrefix, resp.message, "Failed to fetch");
  }
}

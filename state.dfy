/**
 * The create-time author binder: the state processor that wraps the
 * persistence step of `POST /publications`. The token storage and the wrapped
 * processor are modelled by small classes: the storage holds the current
 * token, and the wrapped processor keeps a ghost record of the calls it gets.
 */
module State {
  import opened Wrappers
  import opened Entity

  /** The API operation being processed, opaque here. */
  datatype Operation = Operation(name: string)

  /** An authentication token and the user it carries (`getUser()` may be null). */
  datatype Token = Token(user: Utilisateur?)

  /** The request's token storage; `getToken()` is null when nobody is authenticated. */
  class TokenStorage {
    var token: Option<Token>

    constructor (token: Option<Token>)
      ensures this.token == token
    {
      this.token := token;
    }

    function GetToken(): Option<Token> reads this { token }
  }

  /**
   * One call received by the wrapped processor, with the data's author,
   * message, date and id as they were at that moment.
   */
  datatype ProcessCall = ProcessCall(
    data: Publication,
    operation: Operation,
    uriVariables: map<string, string>,
    context: map<string, string>,
    authorAtCall: Utilisateur?,
    messageAtCall: Option<string>,
    dateAtCall: Option<Instant>,
    idAtCall: Option<int>)

  /** The wrapped persistence processor, reduced to the calls it receives. */
  class RecordingProcessor {
    ghost var calls: seq<ProcessCall>

    constructor ()
      ensures calls == []
    {
      calls := [];
    }

    method Process(data: Publication, operation: Operation,
                   uriVariables: map<string, string>, context: map<string, string>)
      returns (result: Publication)
      modifies this`calls
      ensures calls == old(calls) + [ProcessCall(data, operation, uriVariables, context,
        data.auteur, data.message, data.datePublication, data.id)]
      ensures result == data
    {
      calls := calls + [ProcessCall(data, operation, uriVariables, context,
        data.auteur, data.message, data.datePublication, data.id)];
      result := data;
    }
  }

  class PublicationUserSetter {
    const processor: RecordingProcessor
    const storage: TokenStorage

    constructor (processor: RecordingProcessor, storage: TokenStorage)
      ensures this.processor == processor && this.storage == storage
    {
      this.processor := processor;
      this.storage := storage;
    }

    /**
     * Makes the token's user the author of `data`, whatever author it had,
     * then hands `data` and the other arguments to the wrapped processor,
     * once; its result is dropped. When the processor is called, `data`
     * carries the new author and its message, date and id are still the ones
     * it came with. A missing token faults in the source (`getUser()` on
     * null), so one is required.
     */
    method Process(data: Publication, operation: Operation,
                   uriVariables: map<string, string>, context: map<string, string>)
      requires storage.token.Some?
      modifies data`auteur, data`auteurSet, processor`calls
      ensures data.auteurSet && data.GetAuteur() == storage.token.value.user
      ensures processor.calls == old(processor.calls) +
        [ProcessCall(data, operation, uriVariables, context, storage.token.value.user,
          old(data.message), old(data.datePublication), old(data.id))]
    {
      var token := storage.GetToken();
      var _ := data.SetAuteur(token.value.user);
      var _ := processor.Process(data, operation, uriVariables, context);
    }
  }
}

/** The application state machine of App.tsx. */
module App {
  import opened Wrappers
  import opened Types
  import GeminiService

  /** The one message the user sees on any failure. */
  const FailureMessage: string := "Something went wrong. Please check your API key or try again."

  const EnLeadIn: string := "Based on the previous result, "
  const ViLeadIn: string := "Dựa trên kết quả trước, "

  /** The refinement submitted for a clicked suggestion: the suggestion after
      the lead-in of the current language. */
  function Refinement(language: Language, suggestion: string): (r: string)
    ensures r == (if language == En then EnLeadIn else ViLeadIn) + suggestion
  {
    if language == En then EnLeadIn + suggestion else ViLeadIn + suggestion
  }

  /** A refinement gives away both its language and its suggestion. */
  lemma RefinementInjective(l1: Language, s1: string, l2: Language, s2: string)
    requires Refinement(l1, s1) == Refinement(l2, s2)
    ensures l1 == l2 && s1 == s2
  {
    var r := Refinement(l1, s1);
    assert r[0] == (if l1 == En then 'B' else 'D');
    assert r[0] == (if l2 == En then 'B' else 'D');
    var n := |if l1 == En then EnLeadIn else ViLeadIn|;
    assert s1 == r[n..] == s2;
  }

  /** The arguments of one `generateCreativePrompt(input, language)` call. */
  datatype Call = Call(userInput: string, language: Language)

  /** The three state cells of the component. */
  class AppState {
    var loading: LoadingState
    var data: Option<PromptResponse>
    var language: Language

    /** A result is held exactly in the success state, and a message exactly in
        the error state, where it is always the fixed failure message. */
    predicate Valid()
      reads this
      ensures Valid() ==> (data.Some? ==> loading.status == Success)
      ensures Valid() ==> (loading.status == Error ==> data.None? && loading.message == Some(FailureMessage))
    {
      (data.Some? <==> loading.status == Success)
      && (loading.message.Some? <==> loading.status == Error)
      && (loading.status == Error ==> loading.message == Some(FailureMessage))
    }

    /** Idle, no data, English. */
    constructor ()
      ensures Valid()
      ensures loading == LoadingState(Idle, None) && data == None && language == En
    {
      loading := LoadingState(Idle, None);
      data := None;
      language := En;
    }

    /** The header's language toggle. */
    method SetLanguage(l: Language)
      requires Valid()
      modifies this
      ensures Valid()
      ensures language == l && loading == old(loading) && data == old(data)
    {
      language := l;
    }

    /** The synchronous start of `handleGenerate`: from any state, go to
        loading and drop any held result; the call then issued carries the
        input unchanged and the current language. */
    method BeginGenerate(input: string) returns (call: Call)
      requires Valid()
      modifies this
      ensures Valid()
      ensures loading == LoadingState(Loading, None) && data == None
      ensures language == old(language)
      ensures call == Call(input, language)
    {
      loading := LoadingState(Loading, None);
      data := None;
      call := Call(input, language);
    }

    /** The outstanding call returned `result`: it is stored as it is. */
    method ResolveSuccess(result: PromptResponse)
      requires Valid() && loading.status == Loading
      modifies this
      ensures Valid()
      ensures data == Some(result) && loading == LoadingState(Success, None)
      ensures language == old(language)
    {
      data := Some(result);
      loading := LoadingState(Success, None);
    }

    /** The outstanding call threw: whatever the cause, the status becomes error
        with the fixed message, and no result is held. */
    method ResolveFailure(error: GeminiService.ServiceError)
      requires Valid() && loading.status == Loading
      modifies this
      ensures Valid()
      ensures loading == LoadingState(Error, Some(FailureMessage)) && data == None
      ensures language == old(language)
    {
      loading := LoadingState(Error, Some(FailureMessage));
    }

    /** `handleGenerate` run to completion: begin, one call to the client, then
        the resolve event its outcome calls for. */
    method HandleGenerate(
      input: string,
      apiKey: Option<string>,
      send: GeminiService.Request -> Result<GeminiService.Reply, string>,
      parse: string -> Result<PromptResponse, string>)
      returns (outcome: Result<PromptResponse, GeminiService.ServiceError>)
      requires Valid()
      modifies this
      ensures Valid()
      ensures language == old(language)
      ensures outcome == GeminiService.Outcome(input, old(language), apiKey, send, parse)
      ensures outcome.Ok? ==> data == Some(outcome.value) && loading == LoadingState(Success, None)
      ensures outcome.Err? ==> data == None && loading == LoadingState(Error, Some(FailureMessage))
      ensures !GeminiService.HasApiKey(apiKey) ==> outcome == Err(GeminiService.MissingApiKey)
    {
      var call := BeginGenerate(input);
      ghost var sent;
      outcome, sent := GeminiService.GenerateCreativePrompt(call.userInput, call.language, apiKey, send, parse);
      if outcome.Ok? {
        ResolveSuccess(outcome.value);
      } else {
        ResolveFailure(outcome.error);
      }
    }

    /** `handleSuggestionClick`: builds the refinement in the current language
        and submits it like any typed input. */
    method HandleSuggestionClick(suggestion: string) returns (call: Call)
      requires Valid()
      modifies this
      ensures Valid()
      ensures loading == LoadingState(Loading, None) && data == None
      ensures language == old(language)
      ensures call == Call(Refinement(language, suggestion), language)
    {
      var refinement := Refinement(language, suggestion);
      call := BeginGenerate(refinement);
    }

    /** `handleStrategyUpdate`: with a result held, only the named strategy
        field changes (the other ten, the final prompt and the suggestions are
        kept); with none held, nothing changes. */
    method HandleStrategyUpdate(field: StrategyKey, value: string)
      requires Valid()
      modifies this
      ensures Valid()
      ensures loading == old(loading) && language == old(language)
      ensures old(data).None? ==> data == None
      ensures old(data).Some? ==> data.Some?
      ensures old(data).Some? ==> Get(data.value.strategy, field) == value
      ensures old(data).Some? ==>
        forall k :: k != field ==> Get(data.value.strategy, k) == Get(old(data).value.strategy, k)
      ensures old(data).Some? ==> data.value.finalPrompt == old(data).value.finalPrompt
      ensures old(data).Some? ==> data.value.suggestions == old(data).value.suggestions
    {
      if data.Some? {
        var d := data.value;
        data := Some(d.(strategy := With(d.strategy, field, value)));
      }
    }
  }
}

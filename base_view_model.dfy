/** The shared view-model state (a loading flag and an error message) and the
    two ways a NetworkResult is folded into it. Each observable slot is a
    LiveData cell; `postValue` is modelled as an immediate assignment.
    Callbacks are not passed in: a handler returns the argument it would invoke
    a callback with (None when it would not invoke it), and the caller runs the
    continuation itself. */
module BaseViewModel {
  import opened DataModels
  import opened MemosRepository

  /** An observable cell (`MutableLiveData`). */
  class LiveData<T> {
    var value: T

    constructor (initial: T)
      ensures value == initial
    {
      value := initial;
    }

    /** `postValue`, delivered at once. */
    method PostValue(v: T)
      modifies this
      ensures value == v
    {
      value := v;
    }
  }

  const UnknownError: string := "An unknown error occurred"

  /** Kotlin's elvis operator on a nullable message: `message ?: fallback`. */
  function OrElse(message: Option<string>, fallback: string): string {
    match message
    case Some(m) => m
    case None => fallback
  }

  /** The two shared observable values. */
  datatype Status = Status(isLoading: bool, errorMessage: Option<string>)

  /** How either handler changes the shared status (both overloads agree). */
  function StatusAfter<T>(s: Status, r: NetworkResult<T>): (after: Status)
    ensures after.isLoading <==> r.Loading?
    ensures r.Loading? ==> after.errorMessage == s.errorMessage
    ensures !r.Loading? ==> (after.errorMessage.None? <==> r.Success?)
  {
    match r
    case Loading => s.(isLoading := true)
    case Success(_) => Status(false, None)
    case Error(_, message) => Status(false, Some(OrElse(message, UnknownError)))
  }

  /** How the slot handler changes its target slot. */
  function SlotAfter<T>(slot: Option<T>, r: NetworkResult<T>): (after: Option<T>)
    ensures after.Some? <==> r.Success? || (r.Loading? && slot.Some?)
    ensures r.Success? ==> after == Some(r.data)
    ensures r.Loading? ==> after == slot
  {
    match r
    case Loading => slot
    case Success(data) => Some(data)
    case Error(_, _) => None
  }

  /** The argument `onSuccess` is invoked with, if it is invoked. */
  function OnSuccessArgument<T>(r: NetworkResult<T>): (arg: Option<T>)
    ensures arg.Some? <==> r.Success?
    ensures arg.Some? ==> arg.value == r.data
  {
    match r
    case Success(data) => Some(data)
    case _ => None
  }

  /** The argument `onError` is invoked with, if it is invoked. */
  function OnErrorArgument<T>(r: NetworkResult<T>): (arg: Option<string>)
    ensures arg.Some? <==> r.Error?
    ensures r.Error? && r.message.Some? ==> arg == r.message
  {
    match r
    case Error(_, message) => Some(OrElse(message, UnknownError))
    case _ => None
  }

  /** Loading raises the flag and touches neither the slot, the error message
      nor any callback. */
  lemma LoadingOnlyRaisesFlag<T>(s: Status, slot: Option<T>, r: NetworkResult<T>)
    requires r.Loading?
    ensures StatusAfter(s, r) == Status(true, s.errorMessage)
    ensures SlotAfter(slot, r) == slot
    ensures OnSuccessArgument(r) == None && OnErrorArgument(r) == None
  {
  }

  /** Success lowers the flag, writes the data, clears the error and invokes
      onSuccess once with the data, never onError. */
  lemma SuccessWritesSlot<T>(s: Status, slot: Option<T>, r: NetworkResult<T>)
    requires r.Success?
    ensures StatusAfter(s, r) == Status(false, None)
    ensures SlotAfter(slot, r) == Some(r.data)
    ensures OnSuccessArgument(r) == Some(r.data) && OnErrorArgument(r) == None
  {
  }

  /** Error lowers the flag, shows the result's message or the generic
      fallback, clears the slot, never invokes onSuccess, and hands onError the
      very string it shows. */
  lemma ErrorClearsSlot<T>(s: Status, slot: Option<T>, r: NetworkResult<T>)
    requires r.Error?
    ensures StatusAfter(s, r) == Status(false, Some(if r.message.Some? then r.message.value else UnknownError))
    ensures SlotAfter(slot, r) == None
    ensures OnSuccessArgument(r) == None
    ensures OnErrorArgument(r) == StatusAfter(s, r).errorMessage
  {
  }

  /** Whatever the repository returns, handling it leaves the flag down, and
      the shown error is set exactly when the call failed. */
  lemma RepositoryResultEndsLoading<T>(s: Status, outcome: HttpOutcome<T>)
    ensures !StatusAfter(s, SafeApiCall(outcome)).isLoading
    ensures StatusAfter(s, SafeApiCall(outcome)).errorMessage.None? <==> SafeApiCall(outcome).Success?
  {
  }

  /** Only a thrown exception's message reaches the screen: for an HTTP error
      or an empty body the handlers show the generic fallback, and the
      "API Error: ..." or "Response body is null" text is lost. */
  lemma ResponseErrorShowsFallback<T>(s: Status, outcome: HttpOutcome<T>)
    requires outcome.Response? && !SafeApiCall(outcome).Success?
    ensures StatusAfter(s, SafeApiCall(outcome)).errorMessage == Some(UnknownError)
  {
  }

  class BaseViewModel {
    const errorMessage: LiveData<Option<string>>
    const isLoading: LiveData<bool>

    /** Initially nothing is loading and no error is shown. */
    constructor ()
      ensures fresh(errorMessage) && fresh(isLoading)
      ensures Observed() == Status(false, None)
    {
      errorMessage := new LiveData(None);
      isLoading := new LiveData(false);
    }

    function Observed(): Status
      reads isLoading, errorMessage
    {
      Status(isLoading.value, errorMessage.value)
    }

    /** `handleNetworkResult(liveData, result, onSuccess)`. */
    method HandleNetworkResult<T>(liveData: LiveData<Option<T>>, result: NetworkResult<T>)
      returns (onSuccess: Option<T>)
      requires liveData as object != errorMessage
      modifies isLoading, errorMessage, liveData
      ensures Observed() == StatusAfter(old(Observed()), result)
      ensures liveData.value == SlotAfter(old(liveData.value), result)
      ensures onSuccess == OnSuccessArgument(result)
    {
      match result
      case Loading =>
        isLoading.PostValue(true);
        onSuccess := None;
      case Success(data) =>
        isLoading.PostValue(false);
        liveData.PostValue(Some(data));
        errorMessage.PostValue(None);
        onSuccess := Some(data);
      case Error(_, message) =>
        isLoading.PostValue(false);
        errorMessage.PostValue(Some(OrElse(message, UnknownError)));
        liveData.PostValue(None);
        onSuccess := None;
    }

    /** `handleNetworkResult(result, onSuccess, onError)`: no target slot. */
    method HandleNetworkResultWithCallbacks<T>(result: NetworkResult<T>)
      returns (onSuccess: Option<T>, onError: Option<string>)
      modifies isLoading, errorMessage
      ensures Observed() == StatusAfter(old(Observed()), result)
      ensures onSuccess == OnSuccessArgument(result)
      ensures onError == OnErrorArgument(result)
    {
      onSuccess, onError := None, None;
      match result
      case Loading =>
        isLoading.PostValue(true);
      case Success(data) =>
        isLoading.PostValue(false);
        errorMessage.PostValue(None);
        onSuccess := Some(data);
      case Error(_, message) =>
        isLoading.PostValue(false);
        var errorMsg := OrElse(message, UnknownError);
        errorMessage.PostValue(Some(errorMsg));
        onError := Some(errorMsg);
    }
  }
}

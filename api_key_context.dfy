/** The API-key provider: one secret string kept in memory and in the
    device's secure store, loaded once with a timeout and saved on request. */
module ApiKeyContext {
  import opened Wrappers

  /** The one secure-store key the provider reads and writes. */
  const StorageKey: string := "jules_api_key"

  /** How long the load waits for the store before giving up. */
  const LoadTimeoutMs: nat := 2000

  const MissingProviderMessage: string := "useApiKey must be used within an ApiKeyProvider"

  /** How SecureStore.getItemAsync settles: with a string or null, or by rejecting. */
  datatype StoreRead = Resolved(item: Option<string>) | Rejected

  /** What the `await Promise.race(...)` in the load produces. */
  datatype ReadOutcome = Value(s: string) | Null | Timeout | ReadError

  /** How SecureStore.setItemAsync settles. */
  datatype WriteOutcome = Ok | Fail

  /** A call the provider makes on the secure store. */
  datatype StoreCall = GetItem(key: string) | SetItem(key: string, value: string)

  /** The value the provider hands its children. */
  datatype ContextValue = ContextValue(apiKey: string, isLoaded: bool)

  /** Promise.race of the read, settling after `readDelayMs` (None: never),
      against the rejecting timer. The read wins only when it settles before the timer. */
  function Race(read: StoreRead, readDelayMs: Option<nat>): (o: ReadOutcome)
    ensures o.Timeout? <==> readDelayMs.None? || readDelayMs.value >= LoadTimeoutMs
    ensures o.ReadError? <==> !o.Timeout? && read.Rejected?
    ensures o.Value? ==> read == Resolved(Some(o.s))
    ensures o.Null? <==> !o.Timeout? && read == Resolved(None)
  {
    if readDelayMs.None? || readDelayMs.value >= LoadTimeoutMs then Timeout
    else match read
      case Rejected => ReadError
      case Resolved(None) => Null
      case Resolved(Some(s)) => Value(s)
  }

  /** JavaScript truthiness of the read's result: not null and not "". */
  predicate Truthy(o: ReadOutcome) {
    o.Value? && o.s != ""
  }

  /** The key after the load's outcome is applied to `current`. */
  function AfterRead(current: string, o: ReadOutcome): (key: string)
    ensures Truthy(o) ==> key == o.s
    ensures !Truthy(o) ==> key == current
    ensures key != current ==> key != "" && o == Value(key)
  {
    if Truthy(o) then o.s else current
  }

  /** A timeout and a failed read leave the same key as a null read. */
  lemma FailuresActLikeNull(current: string)
    ensures AfterRead(current, Timeout) == AfterRead(current, Null) == current
    ensures AfterRead(current, ReadError) == AfterRead(current, Null)
    ensures AfterRead(current, Value("")) == AfterRead(current, Null)
  {
  }

  /** A read slower than the timeout is absorbed: the key stays as it was. */
  lemma SlowReadKeepsKey(current: string, read: StoreRead, readDelayMs: nat)
    requires readDelayMs >= LoadTimeoutMs
    ensures AfterRead(current, Race(read, Some(readDelayMs))) == current
  {
  }

  /** useApiKey: fails outside a provider, otherwise yields the provider's value. */
  function UseApiKey(context: Option<ContextValue>): (r: Result<ContextValue, string>)
    ensures r.Failure? <==> context.None?
    ensures r.Failure? ==> r.error == MissingProviderMessage
    ensures r.Success? ==> r.value == context.value
  {
    match context
    case None => Failure(MissingProviderMessage)
    case Some(v) => Success(v)
  }

  /** The ApiKeyProvider component's state: `apiKey` and `isLoaded`, the
      secure-store calls issued so far and the writes not settled yet. */
  class ApiKeyProvider {
    var apiKey: string
    var isLoaded: bool
    var storeCalls: seq<StoreCall>
    var pendingWrites: nat

    /** Every store call, read or write, goes to the same key. */
    ghost predicate Valid()
      reads this
    {
      forall k :: 0 <= k < |storeCalls| ==> storeCalls[k].key == StorageKey
    }

    constructor ()
      ensures Valid()
      ensures apiKey == "" && !isLoaded && storeCalls == [] && pendingWrites == 0
    {
      apiKey, isLoaded, storeCalls, pendingWrites := "", false, [], 0;
    }

    /** loadApiKey: reads the key and awaits the race, with outcome `o`. Only
        a truthy read replaces the key; every outcome ends the loading. */
    method Load(o: ReadOutcome)
      requires Valid()
      modifies this
      ensures Valid() && isLoaded
      ensures apiKey == AfterRead(old(apiKey), o)
      ensures storeCalls == old(storeCalls) + [GetItem(StorageKey)]
      ensures pendingWrites == old(pendingWrites)
    {
      storeCalls := storeCalls + [GetItem(StorageKey)];
      if Truthy(o) {
        apiKey := o.s;
      }
      isLoaded := true;
    }

    /** setApiKey: the key in memory changes at once, then the write is issued. */
    method SetApiKey(k: string)
      requires Valid()
      modifies this
      ensures Valid() && apiKey == k && isLoaded == old(isLoaded)
      ensures storeCalls == old(storeCalls) + [SetItem(StorageKey, k)]
      ensures pendingWrites == old(pendingWrites) + 1
    {
      apiKey := k;
      storeCalls := storeCalls + [SetItem(StorageKey, k)];
      pendingWrites := pendingWrites + 1;
    }

    /** A write settles; a failure is swallowed, and neither outcome touches
        the key in memory. */
    method SettleWrite(w: WriteOutcome)
      requires pendingWrites > 0
      modifies this
      ensures pendingWrites == old(pendingWrites) - 1
      ensures apiKey == old(apiKey) && isLoaded == old(isLoaded) && storeCalls == old(storeCalls)
    {
      pendingWrites := pendingWrites - 1;
    }

    /** The render gate: nothing until loaded, then the context value. */
    function Render(): (r: Option<ContextValue>)
      reads this
      ensures r.Some? <==> isLoaded
      ensures r.Some? ==> r.value.apiKey == apiKey && r.value.isLoaded
    {
      if isLoaded then Some(ContextValue(apiKey, isLoaded)) else None
    }
  }

  /** A child of a loaded provider gets the current key. An unloaded provider
      renders no children, so no `useApiKey` runs under it then. */
  lemma UseApiKeyUnderProvider(p: ApiKeyProvider)
    ensures p.isLoaded ==> UseApiKey(p.Render()) == Success(ContextValue(p.apiKey, true))
  {
  }

  /** A read slower than the timeout still ends the loading, with no key,
      and a saved key is visible at once whether its write fails or not. */
  method SlowLoadThenSave(read: StoreRead, w: WriteOutcome)
  {
    var p := new ApiKeyProvider();
    assert p.Render().None?;
    p.Load(Race(read, Some(5000)));
    assert p.isLoaded && p.apiKey == "";
    p.SetApiKey("abc");
    assert p.apiKey == "abc";
    p.SettleWrite(w);
    assert p.apiKey == "abc" && p.Render() == Some(ContextValue("abc", true));
  }
}

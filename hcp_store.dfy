/**
 * The HCP directory store: the list of known healthcare providers with a
 * loading flag and an error, filled by one asynchronous fetch whose
 * pending, fulfilled and rejected transitions update it in place.
 */
module HcpDirectory {
  import opened Wrappers
  import opened Api
  import Js

  datatype Hcp = Hcp(id: int, name: string, specialty: Option<string>, organization: Option<string>)

  const FetchFailed := "Failed to fetch HCPs"

  /** `action.error.message || 'Failed to fetch HCPs'`: the error a failed fetch stores, never empty. */
  function FetchErrorText(message: Option<string>): (text: string)
    ensures text != ""
    ensures Js.TruthyText(message) ==> text == message.value
    ensures !Js.TruthyText(message) ==> text == FetchFailed
  {
    var chain := [message];
    assert chain[0] == message;
    Js.FirstTruthy(chain, FetchFailed)
  }

  class HcpStore {
    var items: seq<Hcp>
    var loading: bool
    var error: Option<string>

    /** A stored error is never the empty string. */
    ghost predicate Valid()
      reads this
    {
      error.Some? ==> error.value != ""
    }

    /** The initial state: no HCPs, not loading, no error. */
    constructor ()
      ensures Valid()
      ensures items == [] && !loading && error == None
    {
      items := [];
      loading := false;
      error := None;
    }

    method Pending()
      requires Valid()
      modifies this
      ensures Valid()
      ensures loading && error == None && items == old(items)
    {
      loading := true;
      error := None;
    }

    /** The list is replaced wholesale; the error is left as it is. */
    method Fulfilled(payload: seq<Hcp>)
      requires Valid()
      modifies this
      ensures Valid()
      ensures !loading && items == payload && error == old(error)
    {
      loading := false;
      items := payload;
    }

    /** The previous list is kept and the failure's message, or the fallback text, becomes the error. */
    method Rejected(message: Option<string>)
      requires Valid()
      modifies this
      ensures Valid()
      ensures !loading && items == old(items) && error == Some(FetchErrorText(message))
    {
      loading := false;
      error := Some(FetchErrorText(message));
    }
  }

  /**
   * One fetch from start to end: pending, then the transition its outcome
   * selects. Loading is over afterwards; a success leaves the fetched list
   * and no error, a failure the previous list and an error.
   */
  method FetchHcps(store: HcpStore, outcome: Outcome<seq<Hcp>>)
    requires store.Valid()
    modifies store
    ensures store.Valid()
    ensures !store.loading
    ensures outcome.Fulfilled? ==> store.items == outcome.payload && store.error == None
    ensures outcome.Rejected? ==>
      store.items == old(store.items) && store.error == Some(FetchErrorText(outcome.failure.message))
  {
    store.Pending();
    match outcome
    case Fulfilled(hcps) => store.Fulfilled(hcps);
    case Rejected(failure) => store.Rejected(failure.message);
  }
}

/**
 * The `fcm` slice of the Redux store: the push-notification token and
 * whether notification permission was granted.
 */
module FcmSlice {
  import opened Common

  /** The slice's state record. A `null` token is `None`. */
  datatype FcmState = FcmState(token: Option<string>, isPermissionGranted: bool)

  /** The actions the slice's reducer answers to; any other store action is `Unrelated`. */
  datatype FcmAction =
    | SetFcmToken(payload: string)
    | SetPermissionGranted(granted: bool)
    | ClearFcmToken
    | Unrelated

  /** The state the store starts with. */
  function InitialState(): (s: FcmState)
    ensures s.token.None? && !s.isPermissionGranted
  {
    FcmState(None, false)
  }

  /**
   * The slice's reducer. Each case reducer assigns exactly one field;
   * an action the slice does not define leaves the state as it is.
   */
  function Reduce(s: FcmState, a: FcmAction): (r: FcmState)
    ensures a.SetFcmToken? ==> r.token == Some(a.payload) && r.isPermissionGranted == s.isPermissionGranted
    ensures a.SetPermissionGranted? ==> r.isPermissionGranted == a.granted && r.token == s.token
    ensures a.ClearFcmToken? ==> r.token.None? && r.isPermissionGranted == s.isPermissionGranted
    ensures a.Unrelated? ==> r == s
  {
    match a
    case SetFcmToken(t) => s.(token := Some(t))
    case SetPermissionGranted(b) => s.(isPermissionGranted := b)
    case ClearFcmToken => s.(token := None)
    case Unrelated => s
  }

  /** The state after dispatching a sequence of actions, in order, from `s`. */
  function ReduceAll(s: FcmState, actions: seq<FcmAction>): FcmState
    decreases |actions|
  {
    if actions == [] then s else ReduceAll(Reduce(s, actions[0]), actions[1..])
  }

  /** Clearing the token twice is the same as clearing it once. */
  lemma ClearIdempotent(s: FcmState)
    ensures Reduce(Reduce(s, ClearFcmToken), ClearFcmToken) == Reduce(s, ClearFcmToken)
  {
  }

  /** Of two consecutive `setFcmToken` actions the second one wins. */
  lemma LastTokenWins(s: FcmState, a: string, b: string)
    ensures Reduce(Reduce(s, SetFcmToken(a)), SetFcmToken(b)) == Reduce(s, SetFcmToken(b))
  {
  }

  /** Token updates and permission updates touch different fields, so their order does not matter. */
  lemma TokenAndPermissionCommute(s: FcmState, a: FcmAction, b: FcmAction)
    requires a.SetFcmToken? || a.ClearFcmToken?
    requires b.SetPermissionGranted?
    ensures Reduce(Reduce(s, a), b) == Reduce(Reduce(s, b), a)
  {
  }

  /**
   * Whatever actions are dispatched, the permission flag is the payload of
   * the last `setPermissionGranted` among them, or its earlier value when
   * there is none; token actions never touch it.
   */
  lemma {:induction false} PermissionIsLastGranted(s: FcmState, actions: seq<FcmAction>)
    ensures ReduceAll(s, actions).isPermissionGranted == LastGranted(s.isPermissionGranted, actions)
    decreases |actions|
  {
    if actions != [] {
      PermissionIsLastGranted(Reduce(s, actions[0]), actions[1..]);
    }
  }

  /** The payload of the last `SetPermissionGranted` in `actions`, or `dflt`. */
  function LastGranted(dflt: bool, actions: seq<FcmAction>): bool
    decreases |actions|
  {
    if actions == [] then dflt
    else LastGranted(if actions[0].SetPermissionGranted? then actions[0].granted else dflt, actions[1..])
  }

  /**
   * The slice as the store holds it: two fields that the Immer-style case
   * reducers assign in place.
   */
  class FcmStore {
    var token: Option<string>
    var isPermissionGranted: bool

    /** The abstract value of the slice. */
    function State(): FcmState
      reads this
    {
      FcmState(token, isPermissionGranted)
    }

    constructor ()
      ensures State() == InitialState()
    {
      token := None;
      isPermissionGranted := false;
    }

    /** `setFcmToken`: stores the token, leaves the permission flag alone. */
    method SetToken(t: string)
      modifies this
      ensures token == Some(t) && isPermissionGranted == old(isPermissionGranted)
      ensures State() == Reduce(old(State()), SetFcmToken(t))
    {
      token := Some(t);
    }

    /** `setPermissionGranted`: stores the flag, leaves the token alone. */
    method SetPermission(b: bool)
      modifies this
      ensures isPermissionGranted == b && token == old(token)
      ensures State() == Reduce(old(State()), SetPermissionGranted(b))
    {
      isPermissionGranted := b;
    }

    /** `clearFcmToken`: sets the token back to `null`, leaves the permission flag alone. */
    method ClearToken()
      modifies this
      ensures token.None? && isPermissionGranted == old(isPermissionGranted)
      ensures State() == Reduce(old(State()), ClearFcmToken)
    {
      token := None;
    }
  }
}

/** The auth form store: the uncommitted sign-up / log-in form (three text
    fields) and a loading flag, changed by three synchronous reducers. */
module AuthSlice {

  datatype AuthState = AuthState(
    email: string,
    password: string,
    confirmPassword: string,
    isLoading: bool)

  /** Empty fields, not loading. */
  const InitialState: AuthState := AuthState("", "", "", false)

  /** The text fields an `updateField` action may name. */
  datatype Field = Email | Password | ConfirmPassword

  /** The actions `updateField`, `resetForm` and `setLoading` create. */
  datatype AuthAction =
    | FieldUpdated(field: Field, value: string)
    | FormReset
    | LoadingSet(loading: bool)

  /** The value of one text field. */
  function Get(s: AuthState, f: Field): (v: string)
  {
    match f
    case Email => s.email
    case Password => s.password
    case ConfirmPassword => s.confirmPassword
  }

  /** The reducer: one step per dispatched action. */
  function Reduce(s: AuthState, a: AuthAction): (r: AuthState)
    ensures a.FieldUpdated? ==> Get(r, a.field) == a.value
    ensures a.FieldUpdated? ==> forall g :: g != a.field ==> Get(r, g) == Get(s, g)
    ensures a.FormReset? ==> r == InitialState.(isLoading := s.isLoading)
    ensures a.LoadingSet? ==> r.isLoading == a.loading
    ensures !a.LoadingSet? ==> r.isLoading == s.isLoading
    ensures a.LoadingSet? ==> forall g :: Get(r, g) == Get(s, g)
  {
    match a
    case FieldUpdated(Email, v) => s.(email := v)
    case FieldUpdated(Password, v) => s.(password := v)
    case FieldUpdated(ConfirmPassword, v) => s.(confirmPassword := v)
    case FormReset => s.(email := "", password := "", confirmPassword := "")
    case LoadingSet(b) => s.(isLoading := b)
  }

  /** The state after dispatching `acts` in order, starting from `s`. */
  function ReduceAll(s: AuthState, acts: seq<AuthAction>): (r: AuthState)
    decreases acts
  {
    if acts == [] then s else ReduceAll(Reduce(s, acts[0]), acts[1..])
  }

  /** The store as the reducer's draft: four fields assigned in place. */
  class AuthStore {
    var email: string
    var password: string
    var confirmPassword: string
    var isLoading: bool

    function State(): (r: AuthState)
      reads this
    {
      AuthState(email, password, confirmPassword, isLoading)
    }

    constructor ()
      ensures email == "" && password == "" && confirmPassword == "" && !isLoading
      ensures State() == InitialState
    {
      email, password, confirmPassword := "", "", "";
      isLoading := false;
    }

    /** Writes the named field; the other three keep their values. */
    method UpdateField(f: Field, v: string)
      modifies this
      ensures Get(State(), f) == v
      ensures forall g :: g != f ==> Get(State(), g) == Get(old(State()), g)
      ensures isLoading == old(isLoading)
    {
      match f
      case Email => email := v;
      case Password => password := v;
      case ConfirmPassword => confirmPassword := v;
    }

    /** Clears the three text fields; the loading flag is kept. */
    method ResetForm()
      modifies this
      ensures email == "" && password == "" && confirmPassword == ""
      ensures isLoading == old(isLoading)
    {
      email := "";
      password := "";
      confirmPassword := "";
    }

    method SetLoading(b: bool)
      modifies this
      ensures isLoading == b
      ensures email == old(email) && password == old(password)
      ensures confirmPassword == old(confirmPassword)
    {
      isLoading := b;
    }

    /** The slice's reducer applied to this store. */
    method Dispatch(a: AuthAction)
      modifies this
      ensures State() == Reduce(old(State()), a)
    {
      match a
      case FieldUpdated(f, v) =>
        UpdateField(f, v);
        SameFields(State(), Reduce(old(State()), a));
      case FormReset => ResetForm();
      case LoadingSet(b) => SetLoading(b);
    }
  }

  /** Two states that agree on every text field and on the flag are equal. */
  lemma SameFields(s: AuthState, t: AuthState)
    requires forall f :: Get(s, f) == Get(t, f)
    requires s.isLoading == t.isLoading
    ensures s == t
  {
    assert Get(s, Email) == Get(t, Email);
    assert Get(s, Password) == Get(t, Password);
    assert Get(s, ConfirmPassword) == Get(t, ConfirmPassword);
  }

  /** `updateField(f, v)` sets `f` to `v` and changes nothing else. */
  lemma UpdateFieldFrame(s: AuthState, f: Field, v: string)
    ensures Get(Reduce(s, FieldUpdated(f, v)), f) == v
    ensures forall g :: g != f ==> Get(Reduce(s, FieldUpdated(f, v)), g) == Get(s, g)
    ensures Reduce(s, FieldUpdated(f, v)).isLoading == s.isLoading
  {
  }

  /** `resetForm` empties the three text fields and keeps the flag. */
  lemma ResetFormClears(s: AuthState)
    ensures forall f :: Get(Reduce(s, FormReset), f) == ""
    ensures Reduce(s, FormReset) == InitialState.(isLoading := s.isLoading)
  {
  }

  /** `resetForm` twice is `resetForm` once. */
  lemma ResetFormIdempotent(s: AuthState)
    ensures Reduce(Reduce(s, FormReset), FormReset) == Reduce(s, FormReset)
  {
  }

  /** `setLoading(b)` sets the flag and keeps every text field. */
  lemma SetLoadingFrame(s: AuthState, b: bool)
    ensures Reduce(s, LoadingSet(b)).isLoading == b
    ensures forall f :: Get(Reduce(s, LoadingSet(b)), f) == Get(s, f)
  {
  }

  /** `setLoading(b)` twice is `setLoading(b)` once. */
  lemma SetLoadingIdempotent(s: AuthState, b: bool)
    ensures Reduce(Reduce(s, LoadingSet(b)), LoadingSet(b)) == Reduce(s, LoadingSet(b))
  {
  }

  /** Without a `setLoading` among `acts`, the flag keeps its value. */
  lemma {:induction false} NoSetLoadingKeepsFlag(s: AuthState, acts: seq<AuthAction>)
    requires forall i :: 0 <= i < |acts| ==> !acts[i].LoadingSet?
    ensures ReduceAll(s, acts).isLoading == s.isLoading
    decreases acts
  {
    if acts != [] {
      NoSetLoadingKeepsFlag(Reduce(s, acts[0]), acts[1..]);
    }
  }

  /** The last `setLoading` in `acts` decides the flag. */
  lemma {:induction false} LastSetLoadingWins(s: AuthState, acts: seq<AuthAction>, k: nat)
    requires k < |acts| && acts[k].LoadingSet?
    requires forall i :: k < i < |acts| ==> !acts[i].LoadingSet?
    ensures ReduceAll(s, acts).isLoading == acts[k].loading
    decreases acts
  {
    if k == 0 {
      NoSetLoadingKeepsFlag(Reduce(s, acts[0]), acts[1..]);
    } else {
      LastSetLoadingWins(Reduce(s, acts[0]), acts[1..], k - 1);
    }
  }

  /** After any run of `updateField` and `resetForm` actions, a final
      `resetForm` gives back the initial form with the flag untouched. */
  lemma ResetAfterEdits(s: AuthState, acts: seq<AuthAction>)
    requires forall i :: 0 <= i < |acts| ==> !acts[i].LoadingSet?
    ensures Reduce(ReduceAll(s, acts), FormReset) == InitialState.(isLoading := s.isLoading)
  {
    NoSetLoadingKeepsFlag(s, acts);
  }
}

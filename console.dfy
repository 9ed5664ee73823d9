/**
 * The account console: the list component of the single-page frontend
 * (account-list.component.ts).
 *
 * The component keeps the list of accounts, two drafts (a new-account draft
 * and a copy of the account being edited) and two flags that choose the
 * form's mode. HTTP calls are split in two: the method that sends a request
 * returns it, and a completion method receives its result (success with the
 * data, or failure) as an ordinary state transition.
 */
module Console {
  import opened Wrappers
  import opened Decimals


  /** The account record of the frontend; `id` is absent on a draft not yet created. */
  datatype Account = Account(id: Option<int>, name: string, balance: Decimal)

  /** `{ name: '', balance: 0 }`, the reset value of the new-account draft. */
  const EmptyDraft: Account := Account(None, "", 0.0)

  /** The requests the component sends to the gateway. */
  datatype HttpRequest = GetAll | Post(body: Account) | Put(id: int, body: Account) | Delete(id: int)

  /** The outcome of a request as its subscriber sees it. */
  datatype HttpResult<T> = Success(data: T) | Failure

  /** The component's five fields as one value. */
  datatype View = View(
    accounts: seq<Account>,
    newAccount: Account,
    selectedAccount: Option<Account>,
    showForm: bool,
    isEditing: bool)

  /** The field initialisers. */
  const Initial: View := View([], EmptyDraft, None, false, false)

  /** Editing exactly when an account is selected, and editing only with the form shown. */
  ghost predicate Inv(v: View) {
    && (v.isEditing <==> v.selectedAccount.Some?)
    && (v.isEditing ==> v.showForm)
  }

  datatype FormMode = Browsing | Adding | Editing

  function Mode(v: View): FormMode {
    if !v.showForm then Browsing else if v.isEditing then Editing else Adding
  }

  /** Everything that changes the component's fields: the form actions and the arrival of results. */
  datatype Event =
    | AddFormOpened
    | EditStarted(account: Account)
    | FormCancelled
    | RefreshArrived(fetched: HttpResult<seq<Account>>)
    | SaveArrived(saved: HttpResult<Account>)
    | DeleteArrived(deleted: HttpResult<()>)

  function Cancelled(v: View): View {
    v.(showForm := false, isEditing := false, selectedAccount := None, newAccount := EmptyDraft)
  }

  /** The effect of one event on the fields. */
  function Step(v: View, e: Event): (r: View)
    ensures Inv(v) ==> Inv(r)
    ensures !e.RefreshArrived? ==> r.accounts == v.accounts
    ensures e.RefreshArrived? || e.DeleteArrived? ==> r.(accounts := v.accounts) == v
  {
    match e
    case AddFormOpened =>
      v.(newAccount := EmptyDraft, selectedAccount := None, isEditing := false, showForm := true)
    case EditStarted(a) =>
      v.(selectedAccount := Some(a), newAccount := EmptyDraft, isEditing := true, showForm := true)
    case FormCancelled => Cancelled(v)
    case RefreshArrived(Success(data)) => v.(accounts := data)
    case RefreshArrived(Failure) => v
    case SaveArrived(Success(_)) => Cancelled(v)
    case SaveArrived(Failure) => v
    case DeleteArrived(_) => v
  }

  /** The mode each event leads to: the transitions between Browsing, Adding and Editing. */
  lemma StepModes(v: View, e: Event)
    requires Inv(v)
    ensures e.AddFormOpened? ==> Mode(Step(v, e)) == Adding && Step(v, e).newAccount == EmptyDraft
    ensures e.EditStarted? ==> Mode(Step(v, e)) == Editing && Step(v, e).selectedAccount == Some(e.account)
    ensures e.FormCancelled? || (e.SaveArrived? && e.saved.Success?) ==>
      Mode(Step(v, e)) == Browsing && Step(v, e).newAccount == EmptyDraft && Step(v, e).selectedAccount == None
    ensures e.RefreshArrived? || e.DeleteArrived? || (e.SaveArrived? && e.saved.Failure?) ==>
      Mode(Step(v, e)) == Mode(v)
  {
  }

  /** Cancelling twice is cancelling once. */
  lemma CancelIdempotent(v: View)
    ensures Step(Step(v, FormCancelled), FormCancelled) == Step(v, FormCancelled)
  {
  }

  /** A failed save or refresh, and any delete result, leave the form and both drafts as they were. */
  lemma FailuresKeepForm(v: View, e: Event)
    requires e == SaveArrived(Failure) || e == RefreshArrived(Failure) || e.DeleteArrived?
    ensures Step(v, e) == v
  {
  }

  /** The fields after a sequence of events. */
  function Run(v: View, es: seq<Event>): View
    decreases |es|
  {
    if es == [] then v else Run(Step(v, es[0]), es[1..])
  }

  lemma {:induction false} RunKeepsInv(v: View, es: seq<Event>)
    requires Inv(v)
    ensures Inv(Run(v, es))
    decreases |es|
  {
    if es != [] {
      RunKeepsInv(Step(v, es[0]), es[1..]);
    }
  }

  /** Every state reachable from the initial fields satisfies the invariant. */
  lemma ReachableInv(es: seq<Event>)
    ensures Inv(Run(Initial, es))
  {
    RunKeepsInv(Initial, es);
  }

  /** After events that contain no successful refresh, the list is the one the run started with. */
  lemma {:induction false} RunKeepsListWithoutRefresh(v: View, es: seq<Event>)
    requires forall i :: 0 <= i < |es| ==> !(es[i].RefreshArrived? && es[i].fetched.Success?)
    ensures Run(v, es).accounts == v.accounts
    decreases |es|
  {
    if es != [] {
      RunKeepsListWithoutRefresh(Step(v, es[0]), es[1..]);
    }
  }

  class AccountList {
    var accounts: seq<Account>
    var newAccount: Account
    var selectedAccount: Option<Account>
    var showForm: bool
    var isEditing: bool

    function Snapshot(): View
      reads this
    {
      View(accounts, newAccount, selectedAccount, showForm, isEditing)
    }

    ghost predicate Valid()
      reads this
    {
      Inv(Snapshot())
    }

    constructor ()
      ensures Valid() && Snapshot() == Initial
    {
      accounts := [];
      newAccount := EmptyDraft;
      selectedAccount := None;
      showForm := false;
      isEditing := false;
    }

    /** `ngOnInit`: load the list. */
    method OnInit() returns (req: HttpRequest)
      ensures req == GetAll
    {
      req := RefreshAccounts();
    }

    /** `refreshAccounts`: the request only; the list changes when its result arrives. */
    method RefreshAccounts() returns (req: HttpRequest)
      ensures req == GetAll
    {
      req := GetAll;
    }

    /** The result of `refreshAccounts`: the server's list replaces ours on success. */
    method RefreshCompleted(result: HttpResult<seq<Account>>)
      requires Valid()
      modifies this
      ensures Valid() && Snapshot() == Step(old(Snapshot()), RefreshArrived(result))
      ensures result.Success? ==> accounts == result.data
      ensures result.Failure? ==> accounts == old(accounts)
      ensures newAccount == old(newAccount) && selectedAccount == old(selectedAccount)
      ensures showForm == old(showForm) && isEditing == old(isEditing)
    {
      if result.Success? {
        accounts := result.data;
      }
    }

    /** `saveAccount`: an update of the selected copy when editing an account with an id, a create of the new draft otherwise. */
    method SaveAccount() returns (req: HttpRequest)
      ensures req.Put? <==> isEditing && selectedAccount.Some? && selectedAccount.value.id.Some?
      ensures req.Put? ==> req == Put(selectedAccount.value.id.value, selectedAccount.value)
      ensures !req.Put? ==> req == Post(newAccount)
    {
      if isEditing && selectedAccount.Some? && selectedAccount.value.id.Some? {
        req := Put(selectedAccount.value.id.value, selectedAccount.value);
      } else {
        req := Post(newAccount);
      }
    }

    /** The result of `saveAccount`: on success reload the list and close the form; on failure change nothing. */
    method SaveCompleted(result: HttpResult<Account>) returns (followUp: Option<HttpRequest>)
      requires Valid()
      modifies this
      ensures Valid() && Snapshot() == Step(old(Snapshot()), SaveArrived(result))
      ensures result.Success? ==> followUp == Some(GetAll)
      ensures result.Success? ==> !showForm && !isEditing && selectedAccount == None && newAccount == EmptyDraft
      ensures accounts == old(accounts)
      ensures result.Failure? ==> followUp == None && Snapshot() == old(Snapshot())
    {
      followUp := None;
      if result.Success? {
        var refresh := RefreshAccounts();
        followUp := Some(refresh);
        CancelForm();
      }
    }

    /** `deleteAccount`: a delete request only when the user confirms. */
    method DeleteAccount(id: int, confirmed: bool) returns (req: Option<HttpRequest>)
      ensures req.Some? <==> confirmed
      ensures confirmed ==> req == Some(Delete(id))
    {
      if confirmed {
        req := Some(Delete(id));
      } else {
        req := None;
      }
    }

    /** The result of `deleteAccount`: on success reload the list; the form is never touched. */
    method DeleteCompleted(result: HttpResult<()>) returns (followUp: Option<HttpRequest>)
      ensures followUp.Some? <==> result.Success?
      ensures result.Success? ==> followUp == Some(GetAll)
    {
      if result.Success? {
        var refresh := RefreshAccounts();
        followUp := Some(refresh);
      } else {
        followUp := None;
      }
    }

    /** `openAddForm`: show the form bound to a fresh new-account draft. */
    method OpenAddForm()
      requires Valid()
      modifies this
      ensures Valid() && Snapshot() == Step(old(Snapshot()), AddFormOpened)
      ensures Mode(Snapshot()) == Adding
      ensures newAccount == EmptyDraft && selectedAccount == None && accounts == old(accounts)
    {
      newAccount := EmptyDraft;
      selectedAccount := None;
      isEditing := false;
      showForm := true;
    }

    /** `editAccount`: show the form bound to a copy of `account`. */
    method EditAccount(account: Account)
      requires Valid()
      modifies this
      ensures Valid() && Snapshot() == Step(old(Snapshot()), EditStarted(account))
      ensures Mode(Snapshot()) == Editing
      ensures selectedAccount == Some(account) && newAccount == EmptyDraft && accounts == old(accounts)
    {
      selectedAccount := Some(account);
      newAccount := EmptyDraft;
      isEditing := true;
      showForm := true;
    }

    /** `cancelForm`: hide the form and discard both drafts. */
    method CancelForm()
      requires Valid()
      modifies this
      ensures Valid() && Snapshot() == Step(old(Snapshot()), FormCancelled)
      ensures Mode(Snapshot()) == Browsing
      ensures newAccount == EmptyDraft && selectedAccount == None && accounts == old(accounts)
    {
      showForm := false;
      isEditing := false;
      selectedAccount := None;
      newAccount := EmptyDraft;
    }
  }
}

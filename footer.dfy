/**
 * The newsletter form of the footer (components/Footer.tsx): a status that
 * moves idle -> loading -> success and the email being typed. The simulated
 * request is a `setTimeout`; here its callback is the event TimerFired, and
 * the number of callbacks scheduled and not yet run is kept explicitly.
 */
module Footer {

  datatype SubscribeStatus = Idle | Loading | Success

  /** Position of a status along idle -> loading -> success. */
  function Rank(s: SubscribeStatus): nat {
    match s
    case Idle => 0
    case Loading => 1
    case Success => 2
  }

  class NewsletterForm {
    var status: SubscribeStatus
    var email: string
    /** `setTimeout` callbacks scheduled by handleSubscribe and not yet run. */
    var pendingTimers: nat

    ghost predicate Valid()
      reads this
    {
      && (status == Idle ==> pendingTimers == 0)
      && (status == Loading ==> pendingTimers > 0)
      && (status == Success ==> email == "")
    }

    /** `useState('idle')` and `useState('')`. */
    constructor ()
      ensures Valid()
      ensures status == Idle && email == "" && pendingTimers == 0
    {
      status := Idle;
      email := "";
      pendingTimers := 0;
    }

    /** The input's `disabled`: while loading and after success. */
    function InputDisabled(): (disabled: bool)
      reads this
      ensures disabled <==> status != Idle
    {
      status == Loading || status == Success
    }

    /** The button's `disabled`: enabled only when idle with an email typed. */
    function ButtonDisabled(): (disabled: bool)
      reads this
      ensures !disabled <==> status == Idle && |email| > 0
    {
      status != Idle || email == ""
    }

    /** `handleSubscribe`: an empty email does nothing; any other, even one of
        spaces only, starts loading and schedules the timer. The status is
        not consulted. */
    method HandleSubscribe()
      requires Valid()
      modifies this
      ensures Valid()
      ensures old(email) == "" ==>
        status == old(status) && email == old(email) && pendingTimers == old(pendingTimers)
      ensures old(email) != "" ==>
        status == Loading && email == old(email) && pendingTimers == old(pendingTimers) + 1
      ensures old(status) == Success ==> status == Success
      ensures Rank(old(status)) <= Rank(status)
    {
      if email == "" {
        return;
      }
      status := Loading;
      pendingTimers := pendingTimers + 1;
    }

    /** The timer callback: success, and the email is cleared. */
    method TimerFired()
      requires Valid()
      requires pendingTimers > 0
      modifies this
      ensures Valid()
      ensures status == Success && email == "" && pendingTimers == old(pendingTimers) - 1
      ensures Rank(old(status)) <= Rank(status)
    {
      status := Success;
      email := "";
      pendingTimers := pendingTimers - 1;
    }

    /** Typing into the input: a disabled input delivers no change events. */
    method EditEmail(value: string)
      requires Valid()
      modifies this
      ensures Valid()
      ensures old(InputDisabled()) ==> email == old(email)
      ensures !old(InputDisabled()) ==> email == value
      ensures status == old(status) && pendingTimers == old(pendingTimers)
    {
      if !InputDisabled() {
        email := value;
      }
    }

    /** Clicking the button: a disabled button delivers no click, so the
        handler runs only from idle with an email typed. */
    method ClickSubscribe()
      requires Valid()
      modifies this
      ensures Valid()
      ensures old(ButtonDisabled()) ==>
        status == old(status) && email == old(email) && pendingTimers == old(pendingTimers)
      ensures !old(ButtonDisabled()) ==>
        old(status) == Idle && status == Loading && email == old(email) && pendingTimers == 1
      ensures Rank(old(status)) <= Rank(status)
    {
      if !ButtonDisabled() {
        HandleSubscribe();
      }
    }
  }

  /** Idle, type, click, timer: the form ends in success with the email
      cleared, and nothing done afterwards leaves success. */
  method SubscribeScenario(address: string)
    requires address != ""
  {
    var form := new NewsletterForm();
    form.ClickSubscribe();
    assert form.status == Idle;
    form.EditEmail(address);
    form.ClickSubscribe();
    assert form.status == Loading && form.InputDisabled() && form.ButtonDisabled();
    form.EditEmail("other");
    assert form.email == address;
    form.TimerFired();
    assert form.status == Success && form.email == "";
    form.HandleSubscribe();
    form.ClickSubscribe();
    assert form.status == Success;
  }
}

/** The agent registration dialog of
    `src/components/agents/agent-registration-modal.tsx` as a state machine.

    The dialog walks configure -> confirm -> success and back. Its two timers
    (1.5 s to "register", then 2 s to close) are events of their own: a timer
    event does something only when that timer was set. The parent's callbacks
    are effects the step returns. `parseFloat` is a parameter. */
module RegistrationModal {
  import opened Options

  /** The fields of the agent the dialog reads. */
  datatype AgentInfo = AgentInfo(id: string, name: string)

  datatype Visibility = Public | Private

  datatype Step = Configure | Confirm | Success

  /** The dialog's state. `pending` is the agent the registration timer
      captured; `closeScheduled` says whether the close timer is set. */
  datatype Modal = Modal(
    visibility: Visibility,
    customName: string,
    maxCost: string,
    isRegistering: bool,
    step: Step,
    pending: Option<AgentInfo>,
    closeScheduled: bool)

  /** The custom settings handed to `onRegister`. */
  datatype Settings = Settings(customName: string, maxCost: Option<real>)

  /** The parent callback a step calls, if any. */
  datatype Effect =
    | Quiet
    | Register(agentId: string, visibility: Visibility, settings: Settings)
    | Close

  datatype Event =
    | ChooseVisibility(v: Visibility)
    | EditCustomName(text: string)
    | EditMaxCost(text: string)
    | ClickRegister
    | ClickClose
    | RegistrationTimerFires
    | CloseTimerFires

  datatype Outcome = Outcome(modal: Modal, effect: Effect)

  /** The state the dialog is created with. */
  const Init := Modal(Public, "", "", false, Configure, None, false)

  /** The dialog draws anything at all only while open and given an agent. */
  predicate Renders(isOpen: bool, agent: Option<AgentInfo>) {
    isOpen && agent.Some?
  }

  /** The steps are kept in lock-step with the flags: the dialog is busy
      exactly in the confirm step, which is exactly when the registration
      timer is set, and the close timer is set exactly in the success step. */
  predicate Consistent(m: Modal) {
    && (m.isRegistering <==> m.step == Confirm)
    && (m.pending.Some? <==> m.step == Confirm)
    && (m.closeScheduled <==> m.step == Success)
  }

  /** The settings the registration timer sends: the custom name, or the
      agent's own name when the custom one is empty; the parsed cost limit, or
      none when the field is empty. */
  function SettingsFor(m: Modal, agent: AgentInfo, parseFloat: string -> real): (s: Settings)
    ensures s.customName != "" <==> m.customName != "" || agent.name != ""
    ensures m.customName != "" ==> s.customName == m.customName
    ensures m.customName == "" ==> s.customName == agent.name
    ensures s.maxCost.None? <==> m.maxCost == ""
    ensures s.maxCost.Some? ==> s.maxCost.value == parseFloat(m.maxCost)
  {
    Settings(if m.customName != "" then m.customName else agent.name,
             if m.maxCost != "" then Some(parseFloat(m.maxCost)) else None)
  }

  /** `handleRegister`: without an agent nothing happens; otherwise the
      dialog turns busy, shows the confirm step and captures the agent for the
      registration timer. */
  function HandleRegister(m: Modal, agent: Option<AgentInfo>): (o: Outcome)
    ensures o.effect == Quiet
    ensures agent.None? ==> o.modal == m
    ensures agent.Some? ==>
              && o.modal.isRegistering && o.modal.step == Confirm && o.modal.pending == agent
              && o.modal.visibility == m.visibility && o.modal.customName == m.customName
              && o.modal.maxCost == m.maxCost && o.modal.closeScheduled == m.closeScheduled
  {
    if agent.None? then Outcome(m, Quiet)
    else Outcome(m.(isRegistering := true, step := Confirm, pending := agent), Quiet)
  }

  /** The registration timer: calls `onRegister` for the captured agent with
      the current visibility and settings, shows success and sets the close
      timer. */
  function RegistrationTimer(m: Modal, parseFloat: string -> real): (o: Outcome)
    ensures m.pending.None? ==> o == Outcome(m, Quiet)
    ensures m.pending.Some? ==>
              && o.effect == Register(m.pending.value.id, m.visibility, SettingsFor(m, m.pending.value, parseFloat))
              && o.modal.step == Success && !o.modal.isRegistering
              && o.modal.pending.None? && o.modal.closeScheduled
              && o.modal.visibility == m.visibility
  {
    match m.pending
    case None => Outcome(m, Quiet)
    case Some(a) =>
      Outcome(m.(step := Success, isRegistering := false, pending := None, closeScheduled := true),
              Register(a.id, m.visibility, SettingsFor(m, a, parseFloat)))
  }

  /** The close timer: calls `onClose` and puts every field back to its
      initial value. */
  function CloseTimer(m: Modal): (o: Outcome)
    ensures !m.closeScheduled ==> o == Outcome(m, Quiet)
    ensures m.closeScheduled ==> o.effect == Close && o.modal.step == Configure
    ensures m.closeScheduled && m.pending.None? && !m.isRegistering ==> o.modal == Init
  {
    if m.closeScheduled then
      Outcome(m.(step := Configure, customName := "", maxCost := "", visibility := Public, closeScheduled := false), Close)
    else Outcome(m, Quiet)
  }

  /** One event. User events reach the dialog only through controls on the
      screen: nothing is drawn unless `Renders`, the form and its buttons only
      in the configure step, the register button only while not busy, and the
      close button of the header always. */
  function Handle(m: Modal, isOpen: bool, agent: Option<AgentInfo>, parseFloat: string -> real, ev: Event): (o: Outcome)
    // user events on a dialog that draws nothing do nothing
    ensures !Renders(isOpen, agent) && !ev.RegistrationTimerFires? && !ev.CloseTimerFires? ==>
              o == Outcome(m, Quiet)
    // closing by hand only tells the parent: the draft is kept
    ensures ev.ClickClose? ==> o.modal == m
    ensures ev.ClickClose? && Renders(isOpen, agent) ==> o.effect == Close
    // the register button exists only in the configure step and is disabled
    // while registering
    ensures ev.ClickRegister? && (m.step != Configure || m.isRegistering) ==> o == Outcome(m, Quiet)
    ensures ev.ClickRegister? && Renders(isOpen, agent) && m.step == Configure && !m.isRegistering ==>
              o.modal.step == Confirm && o.modal.pending == agent
    // only the registration timer reports a registration
    ensures o.effect.Register? ==> ev.RegistrationTimerFires? && m.pending.Some?
  {
    var shown := Renders(isOpen, agent);
    var editing := shown && m.step == Configure;
    match ev
    case ChooseVisibility(v) => Outcome(if editing then m.(visibility := v) else m, Quiet)
    case EditCustomName(t) => Outcome(if editing then m.(customName := t) else m, Quiet)
    case EditMaxCost(t) => Outcome(if editing then m.(maxCost := t) else m, Quiet)
    case ClickRegister => if editing && !m.isRegistering then HandleRegister(m, agent) else Outcome(m, Quiet)
    case ClickClose => Outcome(m, if shown then Close else Quiet)
    case RegistrationTimerFires => RegistrationTimer(m, parseFloat)
    case CloseTimerFires => CloseTimer(m)
  }

  /** An event together with the parent's props at that moment. */
  datatype Input = Input(isOpen: bool, agent: Option<AgentInfo>, ev: Event)

  function Run(m: Modal, parseFloat: string -> real, inputs: seq<Input>): Modal
    decreases |inputs|
  {
    if |inputs| == 0 then m
    else
      var i := inputs[0];
      Run(Handle(m, i.isOpen, i.agent, parseFloat, i.ev).modal, parseFloat, inputs[1..])
  }

  /** Every single event keeps the steps and flags in lock-step. */
  lemma HandleKeepsConsistent(m: Modal, isOpen: bool, agent: Option<AgentInfo>, parseFloat: string -> real, ev: Event)
    requires Consistent(m)
    ensures Consistent(Handle(m, isOpen, agent, parseFloat, ev).modal)
  {
  }

  /** Whatever the parent and the user do, the steps and flags stay in
      lock-step: in particular the register button is never disabled in the
      configure step, and the dialog is never left busy once it shows
      success. */
  lemma {:induction false} RunKeepsConsistent(m: Modal, parseFloat: string -> real, inputs: seq<Input>)
    requires Consistent(m)
    ensures Consistent(Run(m, parseFloat, inputs))
    decreases |inputs|
  {
    if |inputs| > 0 {
      var i := inputs[0];
      HandleKeepsConsistent(m, i.isOpen, i.agent, parseFloat, i.ev);
      RunKeepsConsistent(Handle(m, i.isOpen, i.agent, parseFloat, i.ev).modal, parseFloat, inputs[1..]);
    }
  }

  /** One full registration from the configure step: a click, then the two
      timers. The parent hears of the registration (with the agent's own name
      when no custom name was typed) and then of the close, and the dialog is
      back to its initial state. */
  lemma RegistrationCycle(m: Modal, a: AgentInfo, parseFloat: string -> real)
    requires Consistent(m) && m.step == Configure
    ensures var o1 := Handle(m, true, Some(a), parseFloat, ClickRegister);
            var o2 := Handle(o1.modal, true, Some(a), parseFloat, RegistrationTimerFires);
            var o3 := Handle(o2.modal, true, Some(a), parseFloat, CloseTimerFires);
            && o1.effect == Quiet
            && o2.effect == Register(a.id, m.visibility, SettingsFor(m, a, parseFloat))
            && o3.effect == Close
            && o3.modal == Init
  {
  }

  /** Closing the dialog while it is registering does not cancel the
      registration: the timer still reports the captured agent, even after
      the parent has taken the agent away. */
  lemma CloseDoesNotCancel(m: Modal, a: AgentInfo, parseFloat: string -> real)
    requires Consistent(m) && m.step == Configure
    ensures var o1 := Handle(m, true, Some(a), parseFloat, ClickRegister);
            var o2 := Handle(o1.modal, true, Some(a), parseFloat, ClickClose);
            var o3 := Handle(o2.modal, false, None, parseFloat, RegistrationTimerFires);
            o2.effect == Close && o3.effect.Register? && o3.effect.agentId == a.id
  {
  }
}

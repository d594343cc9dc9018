// The dashboard's message loop: polling tokens, one action at a time, and
// confirmations.
module Dashboard {

  import opened Wrappers

  datatype Source = Stats | Creds | Tunnel

  datatype Command = Command(name: string, takesArgs: bool, danger: bool)

  // A command's answer to being run. Work always has a label.
  datatype Spec =
    | Rejected
    | Quits
    | Instant
    | Works(title: Label, refreshTunnel: bool, refreshCreds: bool)

  type Label = s: string | s != "" witness "-"

  datatype Key = CtrlC | Esc | Enter | Up | Down | Tab | Backspace | Space | Runes(text: string) | OtherKey

  datatype Entry = Entry(
    active: bool, text: string, hits: seq<Command>, sel: nat, confirming: Option<Command>)

  const CLOSED: Entry := Entry(false, "", [], 0, None)

  datatype Panel = Panel(
    entry: Entry,
    running: string, // the label of the action in flight, or empty
    inFlight: bool,  // a tunnel poll is out
    quitArmed: bool,
    quitting: bool,
    aborted: seq<string>) // what quitting reported as interrupted

  // What the command line makes of a text.
  type Matcher = string -> seq<Command>

  // What an update asks the runtime to do.
  datatype Cmd =
    | Schedule(source: Source)
    | Fetch(source: Source, renew: bool)
    | Work(command: Command, refreshTunnel: bool, refreshCreds: bool)

  datatype Update = Update(panel: Panel, cmds: seq<Cmd>)

  // ---------- keys ----------

  function RequestQuit(p: Panel): Panel {
    if p.running != "" && !p.quitArmed then p.(quitArmed := true)
    else if p.running != "" then p.(quitting := true, aborted := p.aborted + [p.running])
    else p.(quitting := true)
  }

  function Execute(p: Panel, c: Command, spec: Spec): Update {
    match spec
    case Rejected => Update(p, [])
    case Quits => Update(RequestQuit(p), [])
    case Instant => Update(p, [])
    case Works(title, t, k) => Update(p.(running := title), [Work(c, t, k)])
  }

  function Selected(e: Entry): Option<Command> {
    if e.sel >= |e.hits| then None else Some(e.hits[e.sel])
  }

  // `spec` is what the command would answer.
  function Submit(p: Panel, spec: Spec): Update {
    var c := Selected(p.entry);
    if c.None? then Update(p, [])
    else if p.running != "" then Update(p, [])
    else if c.value.danger then
      Update(p.(entry := p.entry.(active := false, confirming := c)), [])
    else Execute(p.(entry := CLOSED), c.value, spec)
  }

  function Retyped(e: Entry, text: string, lookup: Matcher): Entry {
    e.(text := text, hits := lookup(text), sel := 0)
  }

  function OnEntryKey(p: Panel, k: Key, spec: Spec, lookup: Matcher): Update {
    var e := p.entry;
    match k
    case Esc => Update(p.(entry := CLOSED), [])
    case Enter => Submit(p, spec)
    case Up => Update(p.(entry := if e.sel > 0 then e.(sel := e.sel - 1) else e), [])
    case Down => Update(p.(entry := if e.sel + 1 < |e.hits| then e.(sel := e.sel + 1) else e), [])
    case Tab =>
      var c := Selected(e);
      if c.None? then Update(p, [])
      else Update(p.(entry := Retyped(e, "/" + c.value.name + (if c.value.takesArgs then " " else ""), lookup)), [])
    case Backspace =>
      if |e.text| > 1 then Update(p.(entry := Retyped(e, e.text[..|e.text| - 1], lookup)), [])
      else Update(p.(entry := CLOSED), [])
    case Space => Update(p.(entry := Retyped(e, e.text + " ", lookup)), [])
    case Runes(t) => Update(p.(entry := Retyped(e, e.text + t, lookup)), [])
    case _ => Update(p, [])
  }

  predicate SaysYes(k: Key) { k == Runes("y") || k == Runes("Y") }

  predicate SaysNo(k: Key) { k == Runes("n") || k == Runes("N") || k.Esc? || k.Enter? }

  function OnConfirmKey(p: Panel, c: Command, k: Key, spec: Spec): Update {
    if SaysYes(k) then Execute(p.(entry := CLOSED), c, spec)
    else if SaysNo(k) then Update(p.(entry := CLOSED), [])
    else Update(p, [])
  }

  function Poll(p: Panel): Update {
    if p.inFlight then Update(p, []) else Update(p.(inFlight := true), [Fetch(Tunnel, false)])
  }

  // Fresh readings outside the polling chain.
  function Refresh(p: Panel): Update {
    var u := Poll(p);
    Update(u.panel, [Fetch(Creds, false)] + u.cmds)
  }

  function OnNormalKey(p: Panel, k: Key, lookup: Matcher): Update {
    if k == Runes("/") then
      Update(p.(entry := p.entry.(active := true, text := "/", hits := lookup("/"), sel := 0)), [])
    else if k == Runes("q") then Update(RequestQuit(p), [])
    else if k == Runes("r") then Refresh(p)
    else Update(p, []) // closing and scrolling the output panel
  }

  function OnKey(p: Panel, k: Key, spec: Spec, lookup: Matcher): Update {
    if k.CtrlC? then
      Update(p.(quitting := true, aborted := if p.running != "" then p.aborted + [p.running] else p.aborted), [])
    else if p.entry.confirming.Some? then OnConfirmKey(p, p.entry.confirming.value, k, spec)
    else if p.entry.active then OnEntryKey(p, k, spec, lookup)
    else OnNormalKey(p, k, lookup)
  }

  // ---------- messages ----------

  function OnTick(p: Panel, s: Source): Update {
    if s.Tunnel? && p.inFlight then Update(p, [Schedule(Tunnel)])
    else Update(if s.Tunnel? then p.(inFlight := true) else p, [Fetch(s, true)])
  }

  function OnResult(p: Panel, s: Source, renew: bool): Update {
    Update(if s.Tunnel? then p.(inFlight := false) else p, if renew then [Schedule(s)] else [])
  }

  function OnActionDone(p: Panel, refreshTunnel: bool, refreshCreds: bool): Update {
    var rest := p.(running := "");
    var u := if refreshTunnel then Poll(rest) else Update(rest, []);
    Update(u.panel, u.cmds + if refreshCreds then [Fetch(Creds, false)] else [])
  }

  // ---------- the panel and everything it waits for ----------

  datatype Waiting = TickOf(source: Source) | ResultOf(source: Source, renew: bool)

  datatype World = World(panel: Panel, waiting: multiset<Waiting>, actions: seq<Cmd>)

  const START: World :=
    World(Panel(CLOSED, "", false, false, false, []), multiset{TickOf(Stats), TickOf(Creds), TickOf(Tunnel)}, [])

  datatype Event =
    | Ticks(source: Source)
    | Answers(source: Source, renew: bool)
    | Finishes(action: nat, timedOut: bool)
    | Press(key: Key, spec: Spec)

  function Issue(w: World, c: Cmd): World {
    match c
    case Schedule(s) => w.(waiting := w.waiting + multiset{TickOf(s)})
    case Fetch(s, renew) => w.(waiting := w.waiting + multiset{ResultOf(s, renew)})
    case Work(_, _, _) => w.(actions := w.actions + [c])
  }

  function IssueAll(w: World, cmds: seq<Cmd>): World
    decreases |cmds|
  {
    if cmds == [] then w else IssueAll(Issue(w, cmds[0]), cmds[1..])
  }

  function Apply(w: World, u: Update): World { IssueAll(w.(panel := u.panel), u.cmds) }

  // An event that cannot happen now changes nothing. A timed-out action asks
  // for no refresh.
  function Next(w: World, e: Event, lookup: Matcher): World {
    match e
    case Ticks(s) =>
      if TickOf(s) in w.waiting
      then Apply(w.(waiting := w.waiting - multiset{TickOf(s)}), OnTick(w.panel, s))
      else w
    case Answers(s, renew) =>
      if ResultOf(s, renew) in w.waiting
      then Apply(w.(waiting := w.waiting - multiset{ResultOf(s, renew)}), OnResult(w.panel, s, renew))
      else w
    case Finishes(i, timedOut) =>
      if i < |w.actions| && w.actions[i].Work? then
        var a := w.actions[i];
        Apply(w.(actions := w.actions[..i] + w.actions[i + 1..]),
              OnActionDone(w.panel, a.refreshTunnel && !timedOut, a.refreshCreds && !timedOut))
      else w
    case Press(k, spec) => Apply(w, OnKey(w.panel, k, spec, lookup))
  }

  function Run(events: seq<Event>, lookup: Matcher): World {
    if events == [] then START
    else Next(Run(events[..|events| - 1], lookup), events[|events| - 1], lookup)
  }

  lemma RunSnoc(events: seq<Event>, e: Event, lookup: Matcher)
    ensures Run(events + [e], lookup) == Next(Run(events, lookup), e, lookup)
  {
    assert (events + [e])[..|events|] == events;
  }

  lemma {:induction false} PanelOf(w: World, u: Update)
    ensures Apply(w, u).panel == u.panel
    decreases |u.cmds|
  {
    if u.cmds != [] {
      PanelOf(Issue(w.(panel := u.panel), u.cmds[0]), Update(u.panel, u.cmds[1..]));
    }
  }

  // The panel alone, whatever is issued.
  function PanelAfter(w: World, e: Event, lookup: Matcher): Panel {
    match e
    case Ticks(s) => if TickOf(s) in w.waiting then OnTick(w.panel, s).panel else w.panel
    case Answers(s, renew) => if ResultOf(s, renew) in w.waiting then OnResult(w.panel, s, renew).panel else w.panel
    case Finishes(i, timedOut) =>
      if i < |w.actions| && w.actions[i].Work?
      then OnActionDone(w.panel, w.actions[i].refreshTunnel && !timedOut, w.actions[i].refreshCreds && !timedOut).panel
      else w.panel
    case Press(k, spec) => OnKey(w.panel, k, spec, lookup).panel
  }

  lemma PanelOfNext(w: World, e: Event, lookup: Matcher)
    ensures Next(w, e, lookup).panel == PanelAfter(w, e, lookup)
  {
    match e
    case Ticks(s) => PanelOf(w.(waiting := w.waiting - multiset{TickOf(s)}), OnTick(w.panel, s));
    case Answers(s, renew) =>
      PanelOf(w.(waiting := w.waiting - multiset{ResultOf(s, renew)}), OnResult(w.panel, s, renew));
    case Finishes(i, timedOut) =>
      if i < |w.actions| && w.actions[i].Work? {
        var a := w.actions[i];
        PanelOf(w.(actions := w.actions[..i] + w.actions[i + 1..]),
                OnActionDone(w.panel, a.refreshTunnel && !timedOut, a.refreshCreds && !timedOut));
      }
    case Press(k, spec) => PanelOf(w, OnKey(w.panel, k, spec, lookup));
  }

  // ---------- what every run keeps ----------

  // The source's chain of polling: a timer, or the answer that arms it.
  function Tokens(waiting: multiset<Waiting>, s: Source): nat { waiting[TickOf(s)] + waiting[ResultOf(s, true)] }

  function TunnelPolls(waiting: multiset<Waiting>): nat { waiting[ResultOf(Tunnel, true)] + waiting[ResultOf(Tunnel, false)] }

  predicate OneTokenEach(w: World) {
    Tokens(w.waiting, Stats) == Tokens(w.waiting, Creds) == Tokens(w.waiting, Tunnel) == 1
  }

  predicate OnePollAtMost(w: World) { TunnelPolls(w.waiting) == if w.panel.inFlight then 1 else 0 }

  predicate OneActionAtMost(w: World) {
    && |w.actions| == (if w.panel.running != "" then 1 else 0)
    && (w.panel.entry.confirming.Some? ==> w.panel.running == "" && w.panel.entry.confirming.value.danger)
    && (forall a :: a in w.actions ==> a.Work?)
  }

  predicate Orderly(w: World) { OneTokenEach(w) && OnePollAtMost(w) && OneActionAtMost(w) }

  lemma Issue1(w: World, c: Cmd)
    ensures IssueAll(w, [c]) == Issue(w, c)
  {
    assert [c][1..] == [];
  }

  lemma Issue2(w: World, c: Cmd, d: Cmd)
    ensures IssueAll(w, [c] + [d]) == Issue(Issue(w, c), d)
  {
    assert ([c] + [d])[1..] == [d];
    Issue1(Issue(w, c), d);
  }

  // One thing waited for gives way to another.
  function Swapped(waiting: multiset<Waiting>, gone: Waiting, come: Waiting): multiset<Waiting> {
    waiting - multiset{gone} + multiset{come}
  }

  lemma TickKeeps(w: World, s: Source, lookup: Matcher)
    requires Orderly(w)
    ensures Orderly(Next(w, Ticks(s), lookup))
  {
    if TickOf(s) in w.waiting {
      var u := OnTick(w.panel, s);
      var v := w.(panel := u.panel, waiting := w.waiting - multiset{TickOf(s)});
      Issue1(v, u.cmds[0]);
      var come := if u.cmds[0].Fetch? then ResultOf(s, true) else TickOf(s);
      assert Next(w, Ticks(s), lookup) == v.(waiting := Swapped(w.waiting, TickOf(s), come));
      TokenSwapped(w.waiting, TickOf(s), come);
    }
  }

  // A token that changes its form is still one token.
  lemma TokenSwapped(waiting: multiset<Waiting>, gone: Waiting, come: Waiting)
    requires gone in waiting && gone.source == come.source
    requires gone.ResultOf? ==> gone.renew
    requires come.ResultOf? ==> come.renew
    ensures forall s :: Tokens(Swapped(waiting, gone, come), s) == Tokens(waiting, s)
    ensures TunnelPolls(Swapped(waiting, gone, come)) ==
            TunnelPolls(waiting) - (if gone == ResultOf(Tunnel, true) then 1 else 0)
                                 + (if come == ResultOf(Tunnel, true) then 1 else 0)
  {
  }

  lemma AnswerKeeps(w: World, s: Source, renew: bool, lookup: Matcher)
    requires Orderly(w)
    ensures Orderly(Next(w, Answers(s, renew), lookup))
  {
    if ResultOf(s, renew) in w.waiting && renew {
      var u := OnResult(w.panel, s, renew);
      var v := w.(panel := u.panel, waiting := w.waiting - multiset{ResultOf(s, renew)});
      Issue1(v, u.cmds[0]);
      assert Next(w, Answers(s, renew), lookup) == v.(waiting := Swapped(w.waiting, ResultOf(s, true), TickOf(s)));
      TokenSwapped(w.waiting, ResultOf(s, true), TickOf(s));
    }
  }

  // A poll and a reading outside the chain.
  lemma PollKeeps(w: World)
    requires Orderly(w)
    ensures Orderly(Apply(w, Poll(w.panel)))
  {
    if !w.panel.inFlight {
      Issue1(w.(panel := w.panel.(inFlight := true)), Fetch(Tunnel, false));
    }
  }

  lemma CredsKeep(w: World)
    requires Orderly(w)
    ensures Orderly(Issue(w, Fetch(Creds, false)))
  {
  }

  // A manual refresh or an action's follow-up stays outside the chain.
  lemma RefreshKeeps(w: World, tunnel: bool, creds: bool, first: bool)
    requires Orderly(w)
    ensures var u := if tunnel then Poll(w.panel) else Update(w.panel, []);
            var c := if creds then [Fetch(Creds, false)] else [];
            Orderly(Apply(w, Update(u.panel, if first then c + u.cmds else u.cmds + c)))
  {
    var u := if tunnel then Poll(w.panel) else Update(w.panel, []);
    var c := if creds then [Fetch(Creds, false)] else [];
    var v := w.(panel := u.panel);
    if tunnel {
      PollKeeps(w);
    }
    if !creds {
      assert [] + u.cmds == u.cmds && u.cmds + [] == u.cmds;
    } else if u.cmds == [] {
      assert [] + c == c && c + [] == c;
      Issue1(v, c[0]);
    } else {
      Issue1(v, u.cmds[0]);
      CredsKeep(Issue(v, u.cmds[0]));
      Issue2(v, u.cmds[0], c[0]);
      Issue2(v, c[0], u.cmds[0]);
      assert Issue(Issue(v, c[0]), u.cmds[0]) == Issue(Issue(v, u.cmds[0]), c[0]);
    }
  }

  lemma FinishKeeps(w: World, i: nat, timedOut: bool, lookup: Matcher)
    requires Orderly(w)
    ensures Orderly(Next(w, Finishes(i, timedOut), lookup))
  {
    if i < |w.actions| {
      var a := w.actions[i];
      assert w.actions[..i] + w.actions[i + 1..] == [];
      var v := w.(actions := [], panel := w.panel.(running := ""));
      RefreshKeeps(v, a.refreshTunnel && !timedOut, a.refreshCreds && !timedOut, false);
    }
  }

  lemma ExecuteKeeps(w: World, c: Command, spec: Spec)
    requires Orderly(w) && w.panel.running == "" && w.panel.entry == CLOSED
    ensures Orderly(Apply(w, Execute(w.panel, c, spec)))
  {
    if spec.Works? {
      var u := Execute(w.panel, c, spec);
      Issue1(w.(panel := u.panel), u.cmds[0]);
    }
  }

  // The update starts nothing and leaves polling and running alone.
  predicate Idle(p: Panel, u: Update) {
    && u.cmds == [] && u.panel.inFlight == p.inFlight && u.panel.running == p.running
    && (u.panel.entry.confirming.Some? ==> p.running == "" && u.panel.entry.confirming.value.danger)
  }

  lemma EntryKeys(p: Panel, k: Key, spec: Spec, lookup: Matcher)
    requires p.entry.confirming.None?
    ensures var c, u := Selected(p.entry), OnEntryKey(p, k, spec, lookup);
            if k.Enter? && c.Some? && p.running == "" && !c.value.danger
            then u == Execute(p.(entry := CLOSED), c.value, spec)
            else Idle(p, u)
  {
  }

  lemma IdleKeeps(w: World, u: Update)
    requires Orderly(w) && Idle(w.panel, u)
    ensures Orderly(Apply(w, u))
  {
  }

  predicate AnswerPending(p: Panel) { p.entry.confirming.Some? ==> p.running == "" && p.entry.confirming.value.danger }

  lemma NormalKeys(p: Panel, k: Key, lookup: Matcher)
    requires p.entry.confirming.None?
    ensures OnNormalKey(p, k, lookup) == Refresh(p) || Idle(p, OnNormalKey(p, k, lookup))
  {
  }

  lemma ConfirmKeys(p: Panel, c: Command, k: Key, spec: Spec)
    requires p.running == "" && c.danger && p.entry.confirming == Some(c)
    ensures SaysYes(k) || Idle(p, OnConfirmKey(p, c, k, spec))
  {
  }

  // A key refreshes, starts a command, or starts nothing.
  lemma KeyEffect(p: Panel, k: Key, spec: Spec, lookup: Matcher) returns (c: Option<Command>)
    requires AnswerPending(p)
    ensures var u := OnKey(p, k, spec, lookup);
            if c.Some? then p.running == "" && u == Execute(p.(entry := CLOSED), c.value, spec)
            else u == Refresh(p) || Idle(p, u)
  {
    c := None;
    if k.CtrlC? {
    } else if p.entry.confirming.Some? {
      ConfirmKeys(p, p.entry.confirming.value, k, spec);
      c := if SaysYes(k) then p.entry.confirming else None;
    } else if p.entry.active {
      EntryKeys(p, k, spec, lookup);
      c := if Idle(p, OnEntryKey(p, k, spec, lookup)) then None else Selected(p.entry);
    } else {
      NormalKeys(p, k, lookup);
    }
  }

  lemma PressKeeps(w: World, k: Key, spec: Spec, lookup: Matcher)
    requires Orderly(w)
    ensures Orderly(Next(w, Press(k, spec), lookup))
  {
    var u := OnKey(w.panel, k, spec, lookup);
    var c := KeyEffect(w.panel, k, spec, lookup);
    if c.Some? {
      ExecuteKeeps(w.(panel := w.panel.(entry := CLOSED)), c.value, spec);
    } else if Idle(w.panel, u) {
      IdleKeeps(w, u);
    } else {
      RefreshKeeps(w, true, true, true);
    }
  }

  // Whatever ticks, answers, keys and endings arrive, in any order: each
  // source has exactly one polling token, the tunnel is polled at most once at
  // a time and `inFlight` says when, and at most one action is unanswered.
  lemma {:induction false} EveryRunIsOrderly(events: seq<Event>, lookup: Matcher)
    ensures Orderly(Run(events, lookup))
  {
    if events != [] {
      var n := |events| - 1;
      EveryRunIsOrderly(events[..n], lookup);
      var w := Run(events[..n], lookup);
      match events[n] {
        case Ticks(s) => TickKeeps(w, s, lookup);
        case Answers(s, renew) => AnswerKeeps(w, s, renew, lookup);
        case Finishes(i, timedOut) => FinishKeeps(w, i, timedOut, lookup);
        case Press(k, spec) => PressKeeps(w, k, spec, lookup);
      }
    }
  }

  // A chain never rests: a timer turns into a reading, but for a tunnel poll
  // that is out already, and the reading's answer into a timer.
  lemma ChainGoesOn(w: World, s: Source, lookup: Matcher)
    ensures TickOf(s) in w.waiting ==>
      Next(w, Ticks(s), lookup).waiting ==
      Swapped(w.waiting, TickOf(s), if s.Tunnel? && w.panel.inFlight then TickOf(s) else ResultOf(s, true))
    ensures ResultOf(s, true) in w.waiting ==>
      Next(w, Answers(s, true), lookup).waiting == Swapped(w.waiting, ResultOf(s, true), TickOf(s))
    ensures ResultOf(s, false) in w.waiting ==>
      Next(w, Answers(s, false), lookup).waiting == w.waiting - multiset{ResultOf(s, false)}
  {
    var u := OnTick(w.panel, s);
    Issue1(w.(panel := u.panel, waiting := w.waiting - multiset{TickOf(s)}), u.cmds[0]);
    var v := OnResult(w.panel, s, true);
    Issue1(w.(panel := v.panel, waiting := w.waiting - multiset{ResultOf(s, true)}), v.cmds[0]);
  }

  // An action that is over frees the panel and has its readings taken, unless
  // its time ran out.
  lemma ActionIsOver(w: World, timedOut: bool, lookup: Matcher)
    requires Orderly(w) && w.actions != []
    ensures var a, v := w.actions[0], Next(w, Finishes(0, timedOut), lookup);
      && v.panel == w.panel.(running := "", inFlight := w.panel.inFlight || (a.refreshTunnel && !timedOut))
      && v.actions == []
      && v.waiting[ResultOf(Creds, false)] ==
         w.waiting[ResultOf(Creds, false)] + if a.refreshCreds && !timedOut then 1 else 0
  {
    var a := w.actions[0];
    PanelOfNext(w, Finishes(0, timedOut), lookup);
    assert w.actions[..0] + w.actions[1..] == [];
    var rest := w.(actions := [], panel := w.panel.(running := ""));
    var u := OnActionDone(w.panel, a.refreshTunnel && !timedOut, a.refreshCreds && !timedOut);
    assert Next(w, Finishes(0, timedOut), lookup) == IssueAll(rest.(panel := u.panel), u.cmds);
    FollowUps(rest.(panel := u.panel), w.panel.inFlight, a.refreshTunnel && !timedOut, a.refreshCreds && !timedOut);
  }

  lemma FollowUps(w: World, out: bool, tunnel: bool, creds: bool)
    ensures var polls := if tunnel && !out then [Fetch(Tunnel, false)] else [];
      var v := IssueAll(w, polls + if creds then [Fetch(Creds, false)] else []);
      && v.actions == w.actions
      && v.waiting[ResultOf(Creds, false)] == w.waiting[ResultOf(Creds, false)] + if creds then 1 else 0
  {
    var poll, read := Fetch(Tunnel, false), Fetch(Creds, false);
    Issue1(w, poll);
    Issue1(w, read);
    Issue2(w, poll, read);
    assert [] + [read] == [read] && [poll] + [] == [poll];
  }

  // ---------- dangerous commands ----------

  // The event starts the command's work.
  predicate Starts(w: World, e: Event, c: Command, lookup: Matcher) {
    && e.Press?
    && exists cmd :: cmd in OnKey(w.panel, e.key, e.spec, lookup).cmds && cmd.Work? && cmd.command == c
  }

  // At event j the operator pressed Enter on the command, and it has awaited
  // an answer ever since.
  predicate AskedAt(events: seq<Event>, j: nat, c: Command, lookup: Matcher) {
    && j < |events|
    && Run(events, lookup).panel.entry.confirming == Some(c)
    && var before, last := events[..|events| - 1], events[|events| - 1];
       if j < |before| then AskedAt(before, j, c, lookup)
       else
         && last.Press? && last.key.Enter?
         && Run(before, lookup).panel.entry.active && Selected(Run(before, lookup).panel.entry) == Some(c)
  }

  lemma OnlyEnterAsks(w: World, e: Event, c: Command, lookup: Matcher)
    requires w.panel.entry.confirming != Some(c)
    requires Next(w, e, lookup).panel.entry.confirming == Some(c)
    ensures e.Press? && e.key.Enter? && w.panel.entry.active && Selected(w.panel.entry) == Some(c)
  {
    PanelOfNext(w, e, lookup);
    if e.Press? && w.panel.entry.confirming.None? {
      EntryKeys(w.panel, e.key, e.spec, lookup);
    }
  }

  lemma {:induction false} ConfirmingWasAskedFor(events: seq<Event>, c: Command, lookup: Matcher) returns (j: nat)
    requires Run(events, lookup).panel.entry.confirming == Some(c)
    ensures AskedAt(events, j, c, lookup)
  {
    var n := |events| - 1;
    var w := Run(events[..n], lookup);
    if w.panel.entry.confirming == Some(c) {
      j := ConfirmingWasAskedFor(events[..n], c, lookup);
    } else {
      OnlyEnterAsks(w, events[n], c, lookup);
      j := n;
    }
  }

  // A dangerous command starts only on a yes, to its own question, which an
  // Enter on that very command had raised and nothing has answered since; and
  // never while another action is running.
  lemma DangerNeedsItsOwnYes(events: seq<Event>, e: Event, c: Command, lookup: Matcher) returns (j: nat)
    requires c.danger && Starts(Run(events, lookup), e, c, lookup)
    ensures e.Press? && (e.key == Runes("y") || e.key == Runes("Y")) && AskedAt(events, j, c, lookup)
    ensures Run(events, lookup).panel.running == ""
  {
    EveryRunIsOrderly(events, lookup);
    var p := Run(events, lookup).panel;
    assert p.entry.confirming == Some(c);
    j := ConfirmingWasAskedFor(events, c, lookup);
  }

  // And asked, it starts on that yes; a no closes the question and starts
  // nothing, and any other key leaves it standing.
  lemma QuestionIsAnswered(w: World, c: Command, k: Key, spec: Spec, lookup: Matcher)
    requires w.panel.entry.confirming == Some(c) && !k.CtrlC?
    ensures var q := Next(w, Press(k, spec), lookup).panel;
      && (spec.Works? ==> (Starts(w, Press(k, spec), c, lookup) <==> k == Runes("y") || k == Runes("Y")))
      && (k in {Runes("n"), Runes("N"), Esc, Enter} ==> q == w.panel.(entry := CLOSED))
      && (k !in {Runes("y"), Runes("Y"), Runes("n"), Runes("N"), Esc, Enter} ==> q == w.panel)
  {
    PanelOfNext(w, Press(k, spec), lookup);
    var u := OnKey(w.panel, k, spec, lookup);
    if SaysYes(k) && spec.Works? {
      assert u.cmds[0] in u.cmds;
    }
  }

  // A command that is not dangerous starts on Enter, if nothing is running.
  lemma HarmlessStartsAtOnce(w: World, c: Command, spec: Spec, lookup: Matcher)
    requires w.panel.entry.confirming.None? && w.panel.entry.active && Selected(w.panel.entry) == Some(c)
    requires !c.danger && spec.Works?
    ensures Starts(w, Press(Enter, spec), c, lookup) <==> w.panel.running == ""
  {
    var u := OnKey(w.panel, Enter, spec, lookup);
    if w.panel.running == "" {
      assert u.cmds[0] in u.cmds;
    }
  }

  // ---------- what is offered ----------

  // The offers are those for what has been typed, and one of them is selected.
  predicate OffersWhatIsTyped(p: Panel, lookup: Matcher) {
    p.entry.active ==> p.entry.hits == lookup(p.entry.text) && (p.entry.sel == 0 || p.entry.sel < |p.entry.hits|)
  }

  lemma KeysKeepOffers(p: Panel, k: Key, spec: Spec, lookup: Matcher)
    requires OffersWhatIsTyped(p, lookup)
    ensures OffersWhatIsTyped(OnKey(p, k, spec, lookup).panel, lookup)
  {
    if k.CtrlC? {
    } else if p.entry.confirming.Some? {
      ConfirmKeysKeepOffers(p, p.entry.confirming.value, k, spec, lookup);
    } else if p.entry.active {
      EntryKeysKeepOffers(p, k, spec, lookup);
    } else {
      NormalKeysKeepOffers(p, k, lookup);
    }
  }

  lemma ConfirmKeysKeepOffers(p: Panel, c: Command, k: Key, spec: Spec, lookup: Matcher)
    requires OffersWhatIsTyped(p, lookup)
    ensures OffersWhatIsTyped(OnConfirmKey(p, c, k, spec).panel, lookup)
  {
  }

  lemma NormalKeysKeepOffers(p: Panel, k: Key, lookup: Matcher)
    requires OffersWhatIsTyped(p, lookup)
    ensures OffersWhatIsTyped(OnNormalKey(p, k, lookup).panel, lookup)
  {
  }

  lemma EntryKeysKeepOffers(p: Panel, k: Key, spec: Spec, lookup: Matcher)
    requires OffersWhatIsTyped(p, lookup) && p.entry.active
    ensures OffersWhatIsTyped(OnEntryKey(p, k, spec, lookup).panel, lookup)
  {
    if k.Enter? {
      SubmitKeepsOffers(p, spec, lookup);
    }
  }

  lemma SubmitKeepsOffers(p: Panel, spec: Spec, lookup: Matcher)
    requires OffersWhatIsTyped(p, lookup)
    ensures OffersWhatIsTyped(Submit(p, spec).panel, lookup)
  {
  }

  lemma {:induction false} EveryRunOffersWhatIsTyped(events: seq<Event>, lookup: Matcher)
    ensures OffersWhatIsTyped(Run(events, lookup).panel, lookup)
  {
    if events != [] {
      var n := |events| - 1;
      var w := Run(events[..n], lookup);
      EveryRunOffersWhatIsTyped(events[..n], lookup);
      PanelOfNext(w, events[n], lookup);
      if events[n].Press? {
        KeysKeepOffers(w.panel, events[n].key, events[n].spec, lookup);
      }
    }
  }

  // Backspace takes back what was typed last, and Up what Down did.
  lemma EditsAreTakenBack(w: World, ch: char, spec: Spec, lookup: Matcher)
    requires OffersWhatIsTyped(w.panel, lookup)
    requires w.panel.entry.active && w.panel.entry.confirming.None? && w.panel.entry.text != ""
    ensures var typed := Next(w, Press(Runes([ch]), spec), lookup);
      typed.panel.entry.text == w.panel.entry.text + [ch] &&
      Next(typed, Press(Backspace, spec), lookup).panel == w.panel.(entry := w.panel.entry.(sel := 0))
    ensures w.panel.entry.sel + 1 < |w.panel.entry.hits| ==>
      var down := Next(w, Press(Down, spec), lookup);
      Selected(down.panel.entry) == Some(w.panel.entry.hits[w.panel.entry.sel + 1]) &&
      Next(down, Press(Up, spec), lookup).panel == w.panel
  {
    var typed, down := Next(w, Press(Runes([ch]), spec), lookup), Next(w, Press(Down, spec), lookup);
    PanelOfNext(w, Press(Runes([ch]), spec), lookup);
    PanelOfNext(typed, Press(Backspace, spec), lookup);
    PanelOfNext(w, Press(Down, spec), lookup);
    PanelOfNext(down, Press(Up, spec), lookup);
    var text := w.panel.entry.text;
    assert (text + [ch])[..|text + [ch]| - 1] == text;
  }

  // Outside the entry line only "r" has anything read.
  lemma OnlyRRefreshes(p: Panel, k: Key, spec: Spec, lookup: Matcher)
    requires p.entry.confirming.None? && !p.entry.active
    ensures var u := OnKey(p, k, spec, lookup);
      if k == Runes("r") then u.cmds[..1] == [Fetch(Creds, false)] && u.panel.inFlight else u.cmds == []
  {
  }

  // Whoever types on chooses again: a selection never outlives the text it was
  // made for.
  lemma TypingChoosesAgain(w: World, k: Key, spec: Spec, lookup: Matcher)
    requires w.panel.entry.active && w.panel.entry.confirming.None?
    ensures var e := Next(w, Press(k, spec), lookup).panel.entry;
      e.active && e.text != w.panel.entry.text ==> e.sel == 0
  {
    PanelOfNext(w, Press(k, spec), lookup);
  }

  // ---------- quitting ----------

  // The event is a request to quit, by key or by command.
  predicate AsksToQuit(p: Panel, e: Event) {
    && e.Press? && !e.key.CtrlC?
    && if p.entry.confirming.Some? then SaysYes(e.key) && e.spec.Quits?
       else if p.entry.active then
         e.key.Enter? && Selected(p.entry).Some? && p.running == "" && !Selected(p.entry).value.danger && e.spec.Quits?
       else e.key == Runes("q")
  }

  // It is refused: an action is running, and the session goes on.
  predicate Refused(w: World, e: Event, lookup: Matcher) {
    AsksToQuit(w.panel, e) && w.panel.running != "" && !Next(w, e, lookup).panel.quitting
  }

  // Some request of the session was.
  predicate WasRefused(events: seq<Event>, lookup: Matcher) {
    && events != []
    && (WasRefused(events[..|events| - 1], lookup) ||
        Refused(Run(events[..|events| - 1], lookup), events[|events| - 1], lookup))
  }

  // Anything but a request to quit, and CtrlC, leaves the two flags alone.
  predicate SameFlags(p: Panel, q: Panel) { q.quitArmed == p.quitArmed && q.quitting == p.quitting }

  predicate AsRequested(p: Panel, q: Panel) { var r := RequestQuit(p); SameFlags(r, q) && q.aborted == r.aborted }

  lemma ConfirmKeyFlags(p: Panel, c: Command, k: Key, spec: Spec)
    ensures var q := OnConfirmKey(p, c, k, spec).panel;
            if SaysYes(k) && spec.Quits? then AsRequested(p, q) else SameFlags(p, q)
  {
  }

  lemma EntryKeyFlags(p: Panel, k: Key, spec: Spec, lookup: Matcher)
    ensures var q, c := OnEntryKey(p, k, spec, lookup).panel, Selected(p.entry);
            if k.Enter? && c.Some? && p.running == "" && !c.value.danger && spec.Quits? then AsRequested(p, q)
            else SameFlags(p, q)
  {
  }

  lemma NormalKeyFlags(p: Panel, k: Key, lookup: Matcher)
    ensures var q := OnNormalKey(p, k, lookup).panel;
            if k == Runes("q") then AsRequested(p, q) else SameFlags(p, q)
  {
  }

  lemma KeyFlags(p: Panel, k: Key, spec: Spec, lookup: Matcher)
    ensures var q := OnKey(p, k, spec, lookup).panel;
            if AsksToQuit(p, Press(k, spec)) then AsRequested(p, q)
            else q.quitArmed == p.quitArmed && (p.quitting ==> q.quitting)
  {
    if !k.CtrlC? {
      if p.entry.confirming.Some? {
        ConfirmKeyFlags(p, p.entry.confirming.value, k, spec);
      } else if p.entry.active {
        EntryKeyFlags(p, k, spec, lookup);
      } else {
        NormalKeyFlags(p, k, lookup);
      }
    }
  }

  lemma NextFlags(w: World, e: Event, lookup: Matcher)
    ensures var q := Next(w, e, lookup).panel;
            if AsksToQuit(w.panel, e) then AsRequested(w.panel, q)
            else q.quitArmed == w.panel.quitArmed && (w.panel.quitting ==> q.quitting)
  {
    PanelOfNext(w, e, lookup);
    if e.Press? {
      KeyFlags(w.panel, e.key, e.spec, lookup);
    }
  }

  lemma {:induction false} ArmedOnceRefused(events: seq<Event>, lookup: Matcher)
    requires !Run(events, lookup).panel.quitting
    ensures Run(events, lookup).panel.quitArmed <==> WasRefused(events, lookup)
  {
    if events != [] {
      var n := |events| - 1;
      NextFlags(Run(events[..n], lookup), events[n], lookup);
      ArmedOnceRefused(events[..n], lookup);
    }
  }

  // Asked to quit while an action runs, the panel goes on exactly when no
  // request of the whole session has been refused yet; otherwise it ends, and
  // reports what it interrupts.
  lemma RefusesOnceASession(events: seq<Event>, e: Event, lookup: Matcher)
    requires var p := Run(events, lookup).panel; !p.quitting && p.running != "" && AsksToQuit(p, e)
    ensures var p, q := Run(events, lookup).panel, Run(events + [e], lookup).panel;
            && (q.quitting <==> WasRefused(events, lookup))
            && q.aborted == p.aborted + if q.quitting then [p.running] else []
  {
    RunSnoc(events, e, lookup);
    NextFlags(Run(events, lookup), e, lookup);
    ArmedOnceRefused(events, lookup);
  }

  // Ctrl-C ends the session whatever is going on, and says what it interrupts.
  lemma CtrlCAlwaysEnds(w: World, spec: Spec, lookup: Matcher)
    ensures var p, q := w.panel, Next(w, Press(CtrlC, spec), lookup).panel;
      q.quitting && q.aborted == p.aborted + if p.running != "" then [p.running] else []
  {
    PanelOfNext(w, Press(CtrlC, spec), lookup);
  }

  const SLASH: Event := Press(Runes("/"), Rejected)
  const LETTER: Event := Press(Runes("t"), Rejected)
  const ASK: Event := Press(Runes("q"), Rejected)

  function Submitting(title: Label): Event { Press(Enter, Works(title, true, false)) }

  function Typing(title: Label): seq<Event> { [SLASH] + [LETTER] + [Submitting(title)] }

  // What "/t" selects first is a command that does not ask.
  predicate OffersWork(lookup: Matcher) { lookup("/t") != [] && !lookup("/t")[0].danger }

  function Showing(w: World, text: string, lookup: Matcher): World {
    w.(panel := w.panel.(entry := Entry(true, text, lookup(text), 0, None)))
  }

  lemma SlashOpens(w: World, lookup: Matcher)
    requires w.panel.entry == CLOSED
    ensures Next(w, SLASH, lookup) == Showing(w, "/", lookup)
  {
  }

  lemma LetterNarrows(w: World, lookup: Matcher)
    ensures Next(Showing(w, "/", lookup), LETTER, lookup) == Showing(w, "/t", lookup)
  {
    assert "/" + "t" == "/t";
  }

  lemma Typed(events: seq<Event>, lookup: Matcher)
    requires Run(events, lookup).panel.entry == CLOSED
    ensures Run(events + [SLASH] + [LETTER], lookup) == Showing(Run(events, lookup), "/t", lookup)
  {
    RunSnoc(events, SLASH, lookup);
    SlashOpens(Run(events, lookup), lookup);
    RunSnoc(events + [SLASH], LETTER, lookup);
    LetterNarrows(Run(events, lookup), lookup);
  }

  lemma SubmitStarts(w: World, title: Label, lookup: Matcher)
    requires OffersWork(lookup) && w.panel.entry == CLOSED && w.panel.running == ""
    ensures Next(Showing(w, "/t", lookup), Submitting(title), lookup) ==
            w.(panel := w.panel.(running := title), actions := w.actions + [Work(lookup("/t")[0], true, false)])
  {
    Issue1(w.(panel := w.panel.(running := title)), Work(lookup("/t")[0], true, false));
  }

  lemma TypedAction(events: seq<Event>, title: Label, lookup: Matcher)
    requires OffersWork(lookup)
    requires var p := Run(events, lookup).panel; p.entry == CLOSED && p.running == ""
    ensures var w := Run(events, lookup);
            Run(events + Typing(title), lookup) ==
            w.(panel := w.panel.(running := title), actions := w.actions + [Work(lookup("/t")[0], true, false)])
  {
    var w := Run(events, lookup);
    Typed(events, lookup);
    RunSnoc(events + [SLASH] + [LETTER], Submitting(title), lookup);
    SubmitStarts(w, title, lookup);
    assert events + Typing(title) == events + [SLASH] + [LETTER] + [Submitting(title)];
  }

  lemma Asked(events: seq<Event>, lookup: Matcher)
    requires var p := Run(events, lookup).panel; p.entry == CLOSED && p.running != ""
    ensures var w := Run(events, lookup);
            Run(events + [ASK], lookup) == w.(panel := RequestQuit(w.panel))
  {
    RunSnoc(events, ASK, lookup);
  }

  // So the warning promised for each action comes only for the first: here the
  // question is refused during one action and quits at once during the next.
  lemma SecondActionIsQuitUnwarned(lookup: Matcher)
    requires OffersWork(lookup)
    ensures var first := Typing("one") + [ASK];
            var p := Run(first + [Finishes(0, false)] + Typing("two") + [ASK], lookup).panel;
            !Run(first, lookup).panel.quitting && p.quitting && p.aborted == ["two"]
  {
    assert [] + Typing("one") == Typing("one");
    TypedAction([], "one", lookup);
    Asked(Typing("one"), lookup);
    var first := Typing("one") + [ASK];
    var done := first + [Finishes(0, false)];
    RunSnoc(first, Finishes(0, false), lookup);
    PanelOfNext(Run(first, lookup), Finishes(0, false), lookup);
    TypedAction(done, "two", lookup);
    Asked(done + Typing("two"), lookup);
  }
}

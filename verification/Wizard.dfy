/**
 The setup wizard's key handling (cli/cmd/init_tui.go): phases, focus, toggles and the focus flags
 of the text inputs.  The text typed into the inputs and the rendering are not modelled.
 */
module Wizard {

  datatype Phase = Reinit | Setup | Telemetry | Summary

  function Rank(p: Phase): nat {
    match p case Reinit => 0 case Setup => 1 case Telemetry => 2 case Summary => 3
  }

  datatype Field =
    | DataDir | AdvToggle | BackendPort | WebPort | Sandbox | BusBackend | Persistence | Continue
    | TelYes | TelNo | FineTuning | FineTuneVariant | PostgresPort | NatsPort | EncryptSecrets
    | ReinitOverwrite | ReinitCancel | StartYes | StartNo

  /** Keys; everything not named is typed text. */
  datatype Key = CtrlC | Esc | Tab | ShiftTab | Up | Down | Left | Right | Enter | Space | Rune(c: char)

  /** The settings the wizard collects. */
  datatype Options = Options(
    sandbox: bool, busBackend: int, persistence: int, fineTuning: bool, fineTuneVariant: int,
    encryptSecrets: bool, telemetry: bool)

  datatype Ending = Ending(submitted: bool, cancelled: bool, startNow: bool, reinitDenied: bool)

  /** `inputs` are the text inputs that are focused. */
  datatype Model = Model(phase: Phase, focus: Field, inputs: set<Field>, advExpanded: bool, opts: Options,
                         ending: Ending)
  {
    predicate Running() { !ending.submitted && !ending.cancelled }

    function Quit(e: Ending): Model { this.(ending := e) }
  }

  /** newSetupTUI and buildTUIModel: flags may preset the settings; an existing config puts the
      confirmation phase first, with the data directory input already focused. */
  function Start(existing: bool, sandbox: bool, busBackend: int, persistence: int, encrypt: bool): Model {
    Model(if existing then Reinit else Setup, if existing then ReinitOverwrite else DataDir, {DataDir}, false,
          Options(sandbox, busBackend, persistence, false, 0, encrypt, false), Ending(false, false, false, false))
  }

  // ---------------------------------------------------------------- focus

  predicate IsInput(f: Field) {
    f.DataDir? || f.BackendPort? || f.WebPort? || f.PostgresPort? || f.NatsPort?
  }

  function If(b: bool, f: Field): seq<Field> {
    if b then [f] else []
  }

  function AdvancedFields(expanded: bool, o: Options): seq<Field> {
    if expanded then
      [Sandbox, EncryptSecrets, BackendPort, WebPort]
      + (If(o.persistence == 1, PostgresPort) + If(o.busBackend == 1, NatsPort))
    else []
  }

  function SetupFields(expanded: bool, o: Options): seq<Field> {
    [DataDir, Persistence, BusBackend, FineTuning]
    + (If(o.fineTuning, FineTuneVariant) + ([AdvToggle] + (AdvancedFields(expanded, o) + [Continue])))
  }

  function Fields(m: Model): seq<Field> {
    match m.phase
    case Reinit => [ReinitOverwrite, ReinitCancel]
    case Telemetry => [TelYes, TelNo]
    case Summary => [StartYes, StartNo]
    case Setup => SetupFields(m.advExpanded, m.opts)
  }

  /** When a field is on screen. */
  predicate Shown(m: Model, f: Field) {
    match f
    case ReinitOverwrite | ReinitCancel => m.phase.Reinit?
    case TelYes | TelNo => m.phase.Telemetry?
    case StartYes | StartNo => m.phase.Summary?
    case DataDir | Persistence | BusBackend | FineTuning | AdvToggle | Continue => m.phase.Setup?
    case FineTuneVariant => m.phase.Setup? && m.opts.fineTuning
    case Sandbox | EncryptSecrets | BackendPort | WebPort => m.phase.Setup? && m.advExpanded
    case PostgresPort => m.phase.Setup? && m.advExpanded && m.opts.persistence == 1
    case NatsPort => m.phase.Setup? && m.advExpanded && m.opts.busBackend == 1
  }

  lemma AdvancedShown(m: Model, f: Field)
    requires m.phase.Setup?
    ensures f in AdvancedFields(m.advExpanded, m.opts) <==>
              Shown(m, f)
              && (f.Sandbox? || f.EncryptSecrets? || f.BackendPort? || f.WebPort? || f.PostgresPort? || f.NatsPort?)
  {
    var fixed := [Sandbox, EncryptSecrets, BackendPort, WebPort];
    var opt := If(m.opts.persistence == 1, PostgresPort) + If(m.opts.busBackend == 1, NatsPort);
    assert f in fixed <==> f.Sandbox? || f.EncryptSecrets? || f.BackendPort? || f.WebPort? by {
      assert fixed[0] == Sandbox && fixed[1] == EncryptSecrets && fixed[2] == BackendPort && fixed[3] == WebPort;
    }
    assert f in If(m.opts.persistence == 1, PostgresPort) <==> m.opts.persistence == 1 && f == PostgresPort;
    assert f in If(m.opts.busBackend == 1, NatsPort) <==> m.opts.busBackend == 1 && f == NatsPort;
    assert f in fixed + opt <==> f in fixed || f in opt;
  }

  /** The focusable fields are the ones on screen. */
  lemma FieldsAreShown(m: Model, f: Field)
    ensures f in Fields(m) <==> Shown(m, f)
  {
    if m.phase.Setup? {
      var fixed := [DataDir, Persistence, BusBackend, FineTuning];
      assert f in fixed <==> f.DataDir? || f.Persistence? || f.BusBackend? || f.FineTuning? by {
        assert fixed[0] == DataDir && fixed[1] == Persistence && fixed[2] == BusBackend && fixed[3] == FineTuning;
      }
      AdvancedShown(m, f);
      var d := AdvancedFields(m.advExpanded, m.opts) + [Continue];
      var e := [AdvToggle] + d;
      var g := If(m.opts.fineTuning, FineTuneVariant) + e;
      assert f in d <==> f in AdvancedFields(m.advExpanded, m.opts) || f == Continue;
      assert f in e <==> f == AdvToggle || f in d;
      assert f in If(m.opts.fineTuning, FineTuneVariant) <==> m.opts.fineTuning && f == FineTuneVariant;
      assert f in g <==> f in If(m.opts.fineTuning, FineTuneVariant) || f in e;
      assert f in Fields(m) <==> f in fixed || f in g;
    } else {
      var ff := Fields(m);
      assert f in ff <==> f == ff[0] || f == ff[1];
    }
  }

  /** indexOf: 0 when absent. */
  function IndexIn(fs: seq<Field>, f: Field): (i: nat)
    ensures f in fs ==> i < |fs| && fs[i] == f
    ensures f !in fs ==> i == 0
  {
    if fs == [] then 0
    else if fs[0] == f then 0
    else if f in fs[1..] then 1 + IndexIn(fs[1..], f)
    else 0
  }

  /** The input that must be focused when `f` has the focus. */
  function FocusedFor(f: Field): set<Field> {
    if IsInput(f) then {f} else {}
  }

  function Synced(m: Model): Model {
    m.(inputs := FocusedFor(m.focus))
  }

  predicate OnlyInputs(inputs: set<Field>) {
    forall f :: f in inputs ==> IsInput(f)
  }

  /** syncFocus: after its loop an input is focused exactly when it has the focus. */
  method SyncFocus(m: Model) returns (r: Model)
    requires OnlyInputs(m.inputs)
    ensures r == Synced(m)
  {
    var focused := m.inputs;
    var inputs := [DataDir, BackendPort, WebPort, PostgresPort, NatsPort];
    for i := 0 to |inputs|
      invariant OnlyInputs(focused)
      invariant forall k :: 0 <= k < i ==> (inputs[k] in focused <==> inputs[k] == m.focus)
    {
      if m.focus == inputs[i] {
        focused := focused + {inputs[i]};
      } else {
        focused := focused - {inputs[i]};
      }
    }
    assert inputs[0] == DataDir && inputs[1] == BackendPort && inputs[2] == WebPort && inputs[3] == PostgresPort
           && inputs[4] == NatsPort;
    assert focused == FocusedFor(m.focus);
    r := m.(inputs := focused);
  }

  function NextIn(fs: seq<Field>, f: Field): (g: Field)
    ensures f in fs ==> g in fs
  {
    var i := IndexIn(fs, f);
    if i + 1 < |fs| then fs[i + 1] else f
  }

  function PrevIn(fs: seq<Field>, f: Field): (g: Field)
    ensures f in fs ==> g in fs
  {
    var i := IndexIn(fs, f);
    if 0 < i < |fs| then fs[i - 1] else f
  }

  function FocusNext(m: Model): Model {
    Synced(m.(focus := NextIn(Fields(m), m.focus)))
  }

  function FocusPrev(m: Model): Model {
    Synced(m.(focus := PrevIn(Fields(m), m.focus)))
  }

  // ---------------------------------------------------------------- the reducers

  function UpdateReinit(m: Model, k: Key): Model {
    match k
    case CtrlC | Esc => m.Quit(m.ending.(cancelled := true))
    case Tab | Down | Right => FocusNext(m)
    case ShiftTab | Up | Left => FocusPrev(m)
    case Enter =>
      if m.focus == ReinitOverwrite then Synced(m.(phase := Setup, focus := DataDir))
      else m.Quit(m.ending.(reinitDenied := true, cancelled := true))
    case _ => m
  }

  /** Turning sandbox off turns fine-tuning off; turning fine-tuning on turns sandbox on. */
  function Toggled(o: Options, f: Field): Options {
    match f
    case Sandbox => o.(sandbox := !o.sandbox, fineTuning := o.fineTuning && !o.sandbox)
    case BusBackend => o.(busBackend := 1 - o.busBackend)
    case Persistence => o.(persistence := 1 - o.persistence)
    case FineTuning => o.(fineTuning := !o.fineTuning, sandbox := o.sandbox || !o.fineTuning)
    case FineTuneVariant => o.(fineTuneVariant := 1 - o.fineTuneVariant)
    case EncryptSecrets => o.(encryptSecrets := !o.encryptSecrets)
    case _ => o
  }

  function UpdateSetup(m: Model, k: Key): Model {
    match k
    case CtrlC | Esc => m.Quit(m.ending.(cancelled := true))
    case Tab | Down => FocusNext(m)
    case ShiftTab | Up => FocusPrev(m)
    case Enter =>
      if m.focus == AdvToggle then m.(advExpanded := !m.advExpanded)
      else if m.focus == Continue then m.(phase := Telemetry, focus := TelNo)
      else m
    case Left | Right | Space =>
      if m.focus == AdvToggle then (if k == Space then m.(advExpanded := !m.advExpanded) else m)
      else m.(opts := Toggled(m.opts, m.focus))
    case Rune(_) => m
  }

  function Chosen(m: Model, yes: bool): Model {
    m.(opts := m.opts.(telemetry := yes), phase := Summary, focus := StartYes)
  }

  function UpdateTelemetry(m: Model, k: Key): Model {
    match k
    case CtrlC | Esc => m.Quit(m.ending.(cancelled := true))
    case Tab | Down | Right => FocusNext(m)
    case ShiftTab | Up | Left => FocusPrev(m)
    case Enter => Chosen(m, m.focus == TelYes)
    case Rune(c) =>
      if c == 'y' || c == 'Y' then Chosen(m, true) else if c == 'n' || c == 'N' then Chosen(m, false) else m
    case Space => m
  }

  function UpdateSummary(m: Model, k: Key): Model {
    match k
    case CtrlC | Esc => m.Quit(m.ending.(cancelled := true))
    case Tab | Down | Right => FocusNext(m)
    case ShiftTab | Up | Left => FocusPrev(m)
    case Enter => m.Quit(m.ending.(startNow := m.focus == StartYes, submitted := true))
    case _ => m
  }

  function Update(m: Model, k: Key): Model {
    match m.phase
    case Reinit => UpdateReinit(m, k)
    case Setup => UpdateSetup(m, k)
    case Telemetry => UpdateTelemetry(m, k)
    case Summary => UpdateSummary(m, k)
  }

  /** The program stops handling keys once a reducer has asked it to quit. */
  function Run(m: Model, keys: seq<Key>): Model {
    RunWith(Update, m, keys)
  }

  function RunWith(update: (Model, Key) -> Model, m: Model, keys: seq<Key>): Model
    decreases |keys|
  {
    if keys == [] || !m.Running() then m else RunWith(update, update(m, keys[0]), keys[1..])
  }

  // ---------------------------------------------------------------- the invariant

  ghost predicate Inv(m: Model) {
    && Shown(m, m.focus)
    && (m.opts.fineTuning ==> m.opts.sandbox)
    && (m.ending.submitted ==> m.phase == Summary && !m.ending.cancelled)
    && (m.phase == Reinit || m.inputs == FocusedFor(m.focus))
    && EndingOk(m) && (m.opts.telemetry ==> m.phase == Summary)
  }

  /** Starting now is asked for exactly by submitting with the focus on yes, and overwriting is denied only with
      the focus on cancel. */
  predicate EndingOk(m: Model) {
    && (m.ending.startNow <==> m.ending.submitted && m.focus == StartYes)
    && (m.ending.reinitDenied ==> m.ending.cancelled && m.phase == Reinit && m.focus == ReinitCancel)
  }

  lemma StartInv(existing: bool, sandbox: bool, busBackend: int, persistence: int, encrypt: bool)
    ensures Inv(Start(existing, sandbox, busBackend, persistence, encrypt))
  {
  }

  lemma FocusInv(m: Model, f: Field)
    requires Inv(m) && m.Running() && f in Fields(m)
    ensures Inv(Synced(m.(focus := f)))
  {
    FieldsAreShown(m, f);
  }

  lemma FocusMovesInv(m: Model)
    requires Inv(m) && m.Running()
    ensures Inv(FocusNext(m)) && Inv(FocusPrev(m))
  {
    FieldsAreShown(m, m.focus);
    FocusInv(m, NextIn(Fields(m), m.focus));
    FocusInv(m, PrevIn(Fields(m), m.focus));
  }

  lemma SetupInv(m: Model, k: Key)
    requires Inv(m) && m.phase.Setup? && m.Running()
    ensures Inv(UpdateSetup(m, k)) && 1 <= Rank(UpdateSetup(m, k).phase)
  {
    match k
    case Tab | Down | ShiftTab | Up => FocusMovesInv(m);
    case Left | Right | Space => ToggleInv(m);
    case _ =>
  }

  lemma ToggleInv(m: Model)
    requires Inv(m) && m.phase.Setup?
    ensures Inv(m.(opts := Toggled(m.opts, m.focus)))
    ensures m.focus == AdvToggle ==> Inv(m.(advExpanded := !m.advExpanded))
  {
  }

  /** Every key keeps the focus on screen, fine-tuning within sandbox, the focused inputs in step
      with the focus and submission within the summary; and no key goes back a phase. */
  lemma UpdateInv(m: Model, k: Key)
    requires Inv(m) && m.Running()
    ensures Inv(Update(m, k)) && Rank(m.phase) <= Rank(Update(m, k).phase)
  {
    match m.phase
    case Setup => SetupInv(m, k);
    case Reinit => ReinitInv(m, k);
    case Telemetry => TelemetryInv(m, k);
    case Summary => SummaryInv(m, k);
  }

  lemma ReinitInv(m: Model, k: Key)
    requires Inv(m) && m.phase.Reinit? && m.Running()
    ensures Inv(UpdateReinit(m, k))
  {
    FocusMovesInv(m);
  }

  lemma TelemetryInv(m: Model, k: Key)
    requires Inv(m) && m.phase.Telemetry? && m.Running()
    ensures Inv(UpdateTelemetry(m, k)) && 2 <= Rank(UpdateTelemetry(m, k).phase)
  {
    FocusMovesInv(m);
    ChosenInv(m, true);
    ChosenInv(m, false);
  }

  lemma ChosenInv(m: Model, yes: bool)
    requires Inv(m) && m.phase.Telemetry? && m.Running()
    ensures Inv(Chosen(m, yes))
  {
  }

  lemma SummaryInv(m: Model, k: Key)
    requires Inv(m) && m.phase.Summary? && m.Running()
    ensures Inv(UpdateSummary(m, k)) && UpdateSummary(m, k).phase.Summary?
  {
    FocusMovesInv(m);
  }

  lemma {:induction false} RunInv(m: Model, keys: seq<Key>)
    requires Inv(m)
    ensures Inv(Run(m, keys)) && Rank(m.phase) <= Rank(Run(m, keys).phase)
    decreases |keys|
  {
    if keys != [] && m.Running() {
      UpdateInv(m, keys[0]);
      RunInv(Update(m, keys[0]), keys[1..]);
    }
  }

  /** For every key sequence from the start: the focus is one of the fields on screen, fine-tuning
      implies sandbox, submitted only in the summary and never with cancelled, and from setup on a text input is
      focused exactly when it has the focus. */
  lemma EveryRun(existing: bool, sandbox: bool, busBackend: int, persistence: int, encrypt: bool, keys: seq<Key>)
    ensures var m := Run(Start(existing, sandbox, busBackend, persistence, encrypt), keys);
            && m.focus in Fields(m)
            && (m.opts.fineTuning ==> m.opts.sandbox)
            && (m.ending.submitted ==> m.phase == Summary && !m.ending.cancelled)
            && (m.phase != Reinit ==> forall f :: f in m.inputs <==> IsInput(f) && m.focus == f)
            && EndingOk(m) && (m.opts.telemetry ==> m.phase == Summary)
  {
    var s := Start(existing, sandbox, busBackend, persistence, encrypt);
    StartInv(existing, sandbox, busBackend, persistence, encrypt);
    RunInv(s, keys);
    FieldsAreShown(Run(s, keys), Run(s, keys).focus);
  }

  // ---------------------------------------------------------------- what a key does

  /** The keys that end the wizard, from every running state. */
  lemma KeysThatEnd(m: Model, k: Key)
    requires Inv(m) && m.Running()
    ensures Update(m, k).ending.cancelled <==>
              k == CtrlC || k == Esc || (m.phase.Reinit? && k == Enter && m.focus == ReinitCancel)
    ensures Update(m, k).ending.submitted <==> m.phase.Summary? && k == Enter
    ensures Update(m, k).ending.reinitDenied <==> m.phase.Reinit? && k == Enter && m.focus == ReinitCancel
  {
  }

  predicate SaysYes(m: Model, k: Key) {
    k == Rune('y') || k == Rune('Y') || (k == Enter && m.focus == TelYes)
  }

  predicate SaysNo(m: Model, k: Key) {
    k == Rune('n') || k == Rune('N') || (k == Enter && m.focus == TelNo)
  }

  predicate IsToggle(k: Key) { k == Left || k == Right || k == Space }

  /** `p` is `o` with the field flipped; switching sandbox off takes fine-tuning along, and switching fine-tuning on
      takes sandbox along. */
  predicate Flips(o: Options, p: Options, f: Field) {
    && (p.sandbox != o.sandbox <==> f.Sandbox? || (f.FineTuning? && !o.fineTuning && !o.sandbox))
    && (p.fineTuning != o.fineTuning <==> f.FineTuning? || (f.Sandbox? && o.fineTuning))
    && p.busBackend == (if f.BusBackend? then 1 - o.busBackend else o.busBackend)
    && p.persistence == (if f.Persistence? then 1 - o.persistence else o.persistence)
    && p.fineTuneVariant == (if f.FineTuneVariant? then 1 - o.fineTuneVariant else o.fineTuneVariant)
    && (p.encryptSecrets != o.encryptSecrets <==> f.EncryptSecrets?)
    && p.telemetry == o.telemetry
  }

  /** What a key does to the collected settings, from every running state: a toggle key on the setup page flips
      the field it is on and nothing else; on the telemetry page an answer is recorded; no other key changes them. */
  lemma KeyAndOptions(m: Model, k: Key)
    requires Inv(m) && m.Running()
    ensures m.phase.Setup? && IsToggle(k) ==>
              Flips(m.opts, Update(m, k).opts, m.focus)
              && Update(m, k) == m.(opts := Update(m, k).opts, advExpanded := Update(m, k).advExpanded)
    ensures m.phase.Telemetry? ==>
              Update(m, k).opts == m.opts.(telemetry := SaysYes(m, k))
              && (Update(m, k).phase.Summary? <==> SaysYes(m, k) || SaysNo(m, k))
    ensures !(m.phase.Setup? && IsToggle(k)) && !m.phase.Telemetry? ==> Update(m, k).opts == m.opts
  {
    if m.phase.Setup? && IsToggle(k) {
      ToggleFlips(m, k);
    }
  }

  lemma ToggleFlips(m: Model, k: Key)
    requires Inv(m) && m.Running() && m.phase.Setup? && IsToggle(k)
    ensures Flips(m.opts, UpdateSetup(m, k).opts, m.focus)
    ensures UpdateSetup(m, k) == m.(opts := UpdateSetup(m, k).opts, advExpanded := UpdateSetup(m, k).advExpanded)
  {
  }

  /** The advanced fields open and close by enter or space on their heading, and by no other key. */
  lemma AdvancedOpens(m: Model, k: Key)
    requires Inv(m) && m.Running()
    ensures Update(m, k).advExpanded != m.advExpanded <==>
              m.phase.Setup? && m.focus == AdvToggle && (k == Enter || k == Space)
  {
  }

  /** Which key turns which page: enter on overwrite, enter on continue, an answer; and the summary is the last. */
  lemma PagesTurn(m: Model, k: Key)
    requires Inv(m) && m.Running()
    ensures Update(m, k).phase != m.phase <==>
              || (m.phase.Reinit? && k == Enter && m.focus == ReinitOverwrite)
              || (m.phase.Setup? && k == Enter && m.focus == Continue)
              || (m.phase.Telemetry? && (SaysYes(m, k) || SaysNo(m, k)))
    ensures Rank(Update(m, k).phase) <= Rank(m.phase) + 1
    ensures m.phase.Setup? && Update(m, k).phase.Telemetry? ==> Update(m, k).focus == TelNo
    ensures m.phase.Reinit? && Update(m, k).phase.Setup? ==> Update(m, k).focus == DataDir
    ensures m.phase.Telemetry? && Update(m, k).phase.Summary? ==> Update(m, k).focus == StartYes
  {
  }

  /** The keys that do nothing: typed text but an answer on the telemetry page, space outside the setup page,
      and there enter on a field that is neither a heading nor the way on. */
  lemma IdleKeys(m: Model, k: Key)
    requires Inv(m) && m.Running()
    requires || (k.Rune? && (m.phase.Telemetry? ==> !SaysYes(m, k) && !SaysNo(m, k)))
             || (k == Space && !m.phase.Setup?)
             || (k == Enter && m.phase.Setup? && m.focus != AdvToggle && m.focus != Continue)
    ensures Update(m, k) == m
  {
  }

  /** The key at `i` is an enter on overwrite. */
  ghost predicate Overwrites(m: Model, keys: seq<Key>, i: nat) {
    i < |keys| && keys[i] == Enter && Run(m, keys[..i]).phase.Reinit? && Run(m, keys[..i]).focus == ReinitOverwrite
  }

  /** An existing installation is set up again only after an enter on overwrite. */
  lemma {:induction false} OverwriteIsConfirmed(m: Model, keys: seq<Key>)
    requires Inv(m) && m.phase.Reinit? && !Run(m, keys).phase.Reinit?
    ensures exists i: nat :: Overwrites(m, keys, i)
    decreases |keys|
  {
    var n := Update(m, keys[0]);
    UpdateInv(m, keys[0]);
    PagesTurn(m, keys[0]);
    if n.phase.Reinit? {
      OverwriteIsConfirmed(n, keys[1..]);
      var j: nat :| Overwrites(n, keys[1..], j);
      Run1(Update, m, keys[0], keys[1..][..j]);
      assert keys[..j + 1] == [keys[0]] + keys[1..][..j];
      assert Overwrites(m, keys, j + 1);
    } else {
      assert keys[..0] == [];
      assert Overwrites(m, keys, 0);
    }
  }

  /** With an existing config, no run of keys submits without it. */
  lemma ExistingIsConfirmed(sandbox: bool, busBackend: int, persistence: int, encrypt: bool, keys: seq<Key>)
    ensures var m := Start(true, sandbox, busBackend, persistence, encrypt);
            Run(m, keys).ending.submitted ==> exists i: nat :: Overwrites(m, keys, i)
  {
    var m := Start(true, sandbox, busBackend, persistence, encrypt);
    StartInv(true, sandbox, busBackend, persistence, encrypt);
    RunInv(m, keys);
    if Run(m, keys).ending.submitted {
      OverwriteIsConfirmed(m, keys);
    }
  }

  /** No page has a field twice. */
  lemma FieldAt(m: Model, i: nat)
    requires i < |Fields(m)|
    ensures IndexIn(Fields(m), Fields(m)[i]) == i && |Fields(m)| >= 2
  {
    if m.phase.Setup? {
      SetupAscending(m.advExpanded, m.opts);
      IndexOfAscending(Fields(m), i);
    }
  }

  lemma MoveKeys(m: Model)
    ensures Update(m, Tab) == Update(m, Down) == FocusNext(m) && Update(m, ShiftTab) == Update(m, Up) == FocusPrev(m)
  {
  }

  lemma NextOf(m: Model, fs: seq<Field>, i: nat)
    requires i < |fs| && fs == Fields(m) && IndexIn(fs, fs[i]) == i
    ensures FocusNext(At(m, fs, i)) == At(m, fs, if i + 1 < |fs| then i + 1 else i)
    ensures FocusPrev(At(m, fs, i)) == At(m, fs, if i > 0 then i - 1 else i)
  {
    assert Fields(At(m, fs, i)) == fs;
  }

  /** Going back undoes going on, from every running state that is not on the last field of its page; there,
      going on stays, and going back goes to the field before. */
  lemma BackUndoesOn(m: Model)
    requires Inv(m) && m.Running() && m.inputs == FocusedFor(m.focus)
    ensures var last := Fields(m)[|Fields(m)| - 1];
            && (Update(Update(m, Tab), ShiftTab) == m <==> m.focus != last)
            && (m.focus == last ==> Update(m, Tab) == m)
    ensures Update(m, Down) == Update(m, Tab) && Update(m, Up) == Update(m, ShiftTab)
    ensures !m.phase.Setup? ==> Update(m, Right) == Update(m, Tab) && Update(m, Left) == Update(m, ShiftTab)
  {
    FieldsAreShown(m, m.focus);
    var i := IndexIn(Fields(m), m.focus);
    FieldAt(m, i);
    FieldAt(m, |Fields(m)| - 1);
    FieldAt(m, if i + 1 < |Fields(m)| then i + 1 else i - 1);
    MoveKeys(m);
    OnAndBack(m, Fields(m), i);
  }

  lemma OnAndBack(m: Model, fs: seq<Field>, i: nat)
    requires fs == Fields(m) && 2 <= |fs| && m.inputs == FocusedFor(m.focus) && i < |fs| && fs[i] == m.focus
    requires IndexIn(fs, fs[i]) == i && (i + 1 < |fs| ==> IndexIn(fs, fs[i + 1]) == i + 1)
    requires i + 1 == |fs| ==> IndexIn(fs, fs[i - 1]) == i - 1
    ensures Update(Update(m, Tab), ShiftTab) == m <==> i + 1 < |fs|
    ensures i + 1 == |fs| ==> Update(m, Tab) == m
  {
    assert At(m, fs, i) == m;
    NextOf(m, fs, i);
    MoveKeys(m);
    MoveKeys(Update(m, Tab));
    if i + 1 < |fs| {
      NextOf(m, fs, i + 1);
    } else {
      assert At(m, fs, i - 1).focus != m.focus;
    }
  }

  // ---------------------------------------------------------------- the answer about telemetry

  lemma {:induction false} SummaryKeepsOptions(m: Model, keys: seq<Key>)
    requires Inv(m) && m.phase.Summary?
    ensures Run(m, keys).opts == m.opts
    decreases |keys|
  {
    if keys != [] && m.Running() {
      UpdateInv(m, keys[0]);
      KeyAndOptions(m, keys[0]);
      PagesTurn(m, keys[0]);
      SummaryKeepsOptions(Update(m, keys[0]), keys[1..]);
    }
  }

  /** The key at `i` leaves the telemetry page. */
  ghost predicate Answers(m: Model, keys: seq<Key>, i: nat) {
    i < |keys| && var u := Run(m, keys[..i]); u.Running() && u.phase.Telemetry? && Update(u, keys[i]).phase.Summary?
  }

  /** For every key sequence that reaches the summary: one key left the telemetry page, and telemetry is on exactly
      if that key was a yes. */
  lemma {:induction false} TelemetryIsTheAnswer(m: Model, keys: seq<Key>)
    requires Inv(m) && !m.phase.Summary? && Run(m, keys).phase.Summary?
    ensures exists i: nat :: Answers(m, keys, i)
                             && (Run(m, keys).opts.telemetry <==> SaysYes(Run(m, keys[..i]), keys[i]))
    decreases |keys|
  {
    var n := Update(m, keys[0]);
    UpdateInv(m, keys[0]);
    if n.phase.Summary? {
      PagesTurn(m, keys[0]);
      KeyAndOptions(m, keys[0]);
      SummaryKeepsOptions(n, keys[1..]);
      assert keys[..0] == [];
      assert Answers(m, keys, 0);
    } else {
      TelemetryIsTheAnswer(n, keys[1..]);
      var j: nat :| Answers(n, keys[1..], j)
                    && (Run(n, keys[1..]).opts.telemetry <==> SaysYes(Run(n, keys[1..][..j]), keys[1..][j]));
      Run1(Update, m, keys[0], keys[1..][..j]);
      assert keys[..j + 1] == [keys[0]] + keys[1..][..j];
      assert Run(m, keys[..j + 1]) == Run(n, keys[1..][..j]);
      assert Answers(m, keys, j + 1);
    }
  }

  // ---------------------------------------------------------------- submit is always in reach

  /** Position of a field in the order of the setup page. */
  function Order(f: Field): nat {
    match f
    case DataDir => 0 case Persistence => 1 case BusBackend => 2 case FineTuning => 3 case FineTuneVariant => 4
    case AdvToggle => 5 case Sandbox => 6 case EncryptSecrets => 7 case BackendPort => 8 case WebPort => 9
    case PostgresPort => 10 case NatsPort => 11 case Continue => 12
    case _ => 13
  }

  /** Strictly in the order of the page, between two positions. */
  ghost predicate Between(fs: seq<Field>, lo: nat, hi: nat) {
    && (forall i :: 0 <= i < |fs| ==> lo <= Order(fs[i]) < hi)
    && (forall i, j :: 0 <= i < j < |fs| ==> Order(fs[i]) < Order(fs[j]))
  }

  lemma BetweenAppend(a: seq<Field>, b: seq<Field>, lo: nat, mid: nat, hi: nat)
    requires Between(a, lo, mid) && Between(b, mid, hi) && lo <= mid <= hi
    ensures Between(a + b, lo, hi)
  {
  }

  lemma FixedFields()
    ensures Between([DataDir, Persistence, BusBackend, FineTuning], 0, 4)
    ensures Between([Sandbox, EncryptSecrets, BackendPort, WebPort], 6, 10)
    ensures Between([AdvToggle], 5, 6) && Between([Continue], 12, 13)
  {
  }

  lemma AdvancedAscending(expanded: bool, o: Options)
    ensures Between(AdvancedFields(expanded, o), 6, 12) && |AdvancedFields(expanded, o)| <= 6
  {
    var pg, nats := If(o.persistence == 1, PostgresPort), If(o.busBackend == 1, NatsPort);
    FixedFields();
    BetweenAppend(pg, nats, 10, 11, 12);
    BetweenAppend([Sandbox, EncryptSecrets, BackendPort, WebPort], pg + nats, 6, 10, 12);
  }

  lemma SetupAscending(expanded: bool, o: Options)
    ensures Between(SetupFields(expanded, o), 0, 13) && 1 <= |SetupFields(expanded, o)| <= 13
    ensures SetupFields(expanded, o)[|SetupFields(expanded, o)| - 1] == Continue
  {
    var adv := AdvancedFields(expanded, o);
    AdvancedAscending(expanded, o);
    SetupParts(adv, If(o.fineTuning, FineTuneVariant));
  }

  lemma SetupParts(adv: seq<Field>, variant: seq<Field>)
    requires Between(adv, 6, 12) && Between(variant, 4, 5) && |adv| <= 6 && |variant| <= 1
    ensures var fs := [DataDir, Persistence, BusBackend, FineTuning] + (variant + ([AdvToggle] + (adv + [Continue])));
            Between(fs, 0, 13) && 1 <= |fs| <= 13 && fs[|fs| - 1] == Continue
  {
    FixedFields();
    BetweenAppend(adv, [Continue], 6, 12, 13);
    BetweenAppend([AdvToggle], adv + [Continue], 5, 6, 13);
    BetweenAppend(variant, [AdvToggle] + (adv + [Continue]), 4, 5, 13);
    var rest := variant + ([AdvToggle] + (adv + [Continue]));
    BetweenAppend([DataDir, Persistence, BusBackend, FineTuning], rest, 0, 4, 13);
  }

  lemma IndexOfAscending(fs: seq<Field>, i: nat)
    requires Between(fs, 0, 13) && i < |fs|
    ensures IndexIn(fs, fs[i]) == i
  {
    var k := IndexIn(fs, fs[i]);
    assert fs[k] == fs[i];
  }

  function Tabs(n: nat): seq<Key> {
    if n == 0 then [] else [Tab] + Tabs(n - 1)
  }

  lemma Run1(update: (Model, Key) -> Model, m: Model, k: Key, rest: seq<Key>)
    requires m.Running()
    ensures RunWith(update, m, [k] + rest) == RunWith(update, update(m, k), rest)
  {
    assert ([k] + rest)[1..] == rest;
  }

  /** The page with the focus on its `i`th field. */
  function At(m: Model, fs: seq<Field>, i: nat): Model
    requires i < |fs|
  {
    Synced(m.(focus := fs[i]))
  }

  /** On the setup page, a tab moves the focus one field on. */
  ghost predicate TabMoves(update: (Model, Key) -> Model, m: Model, fs: seq<Field>) {
    forall i :: 0 < i < |fs| ==> update(At(m, fs, i - 1), Tab) == At(m, fs, i)
  }

  lemma TabMovesOn(m: Model, fs: seq<Field>)
    requires m.phase.Setup? && fs == Fields(m) && Between(fs, 0, 13)
    ensures TabMoves(Update, m, fs)
  {
    forall i | 0 < i < |fs| ensures Update(At(m, fs, i - 1), Tab) == At(m, fs, i) {
      IndexOfAscending(fs, i - 1);
      NextAt(At(m, fs, i - 1), fs, i);
    }
  }

  lemma NextAt(m: Model, fs: seq<Field>, i: nat)
    requires m.phase.Setup? && fs == Fields(m) && 0 < i < |fs| && IndexIn(fs, m.focus) == i - 1
    ensures Update(m, Tab) == At(m, fs, i)
  {
  }

  /** So `n` tabs move it `n` fields on. */
  lemma {:induction false} TabsMove(update: (Model, Key) -> Model, m: Model, fs: seq<Field>, i: nat, n: nat,
                                    rest: seq<Key>)
    requires TabMoves(update, m, fs) && m.Running() && i + n < |fs|
    ensures RunWith(update, At(m, fs, i), Tabs(n) + rest) == RunWith(update, At(m, fs, i + n), rest)
    decreases n
  {
    if n == 0 {
      assert Tabs(n) + rest == rest;
    } else {
      assert Tabs(n) + rest == [Tab] + (Tabs(n - 1) + rest);
      Run1(update, At(m, fs, i), Tab, Tabs(n - 1) + rest);
      assert update(At(m, fs, i), Tab) == At(m, fs, i + 1);
      TabsMove(update, m, fs, i + 1, n - 1, rest);
    }
  }

  /** A key sequence that submits, from the setup page on. */
  function SetupKeys(m: Model): seq<Key>
    requires m.phase.Setup?
  {
    KeysFrom(Fields(m), m.focus)
  }

  /** Tabs to the last field, and enter. */
  function KeysFrom(fs: seq<Field>, f: Field): seq<Key> {
    var n, i := |fs|, IndexIn(fs, f);
    Tabs(if i < n then n - 1 - i else 0) + [Enter, Enter, Enter]
  }

  function KeysToSubmit(m: Model): seq<Key> {
    match m.phase
    case Summary => [Enter]
    case Telemetry => [Rune('n'), Enter]
    case Setup => SetupKeys(m)
    case Reinit => [Left, Enter] + SetupKeys(Synced(m.(phase := Setup, focus := DataDir)))
  }

  lemma {:induction false} TabsLength(n: nat)
    ensures |Tabs(n)| == n
  {
    if n > 0 {
      TabsLength(n - 1);
    }
  }

  /** Submitted and started at once, with these settings. */
  predicate Accepted(t: Model, o: Options) {
    t.ending == Ending(true, false, true, false) && t.opts == o
  }

  lemma FreshFields(o: Options)
    requires !o.fineTuning
    ensures var fs := SetupFields(false, o);
            fs == [DataDir, Persistence, BusBackend, FineTuning, AdvToggle, Continue] && Between(fs, 0, 13)
  {
    SetupAscending(false, o);
  }

  lemma SetupAccepts(m: Model)
    requires m.phase.Setup? && m.focus == DataDir && m.inputs == {DataDir} && !m.advExpanded && !m.opts.fineTuning
    requires !m.opts.telemetry && m.ending == Ending(false, false, false, false)
    ensures Accepted(Run(m, Tabs(5) + [Enter, Enter, Enter]), m.opts)
  {
    var fs := Fields(m);
    FreshFields(m.opts);
    TabMovesOn(m, fs);
    assert At(m, fs, 0) == m;
    TabsMove(Update, m, fs, 0, 5, [Enter, Enter, Enter]);
    EndOfSetup(At(m, fs, 5));
  }

  /** Who accepts what the wizard proposes, tab by tab and enter by enter, overwrites, starts at once, and gets
      the settings of the flags without telemetry. */
  lemma DefaultsSubmit(existing: bool, sandbox: bool, busBackend: int, persistence: int, encrypt: bool)
    ensures var keys := (if existing then [Enter] else []) + (Tabs(5) + [Enter, Enter, Enter]);
            Accepted(Run(Start(existing, sandbox, busBackend, persistence, encrypt), keys),
                     Options(sandbox, busBackend, persistence, false, 0, encrypt, false))
  {
    SetupAccepts(Start(false, sandbox, busBackend, persistence, encrypt));
    EnterOverwrites(existing, sandbox, busBackend, persistence, encrypt, Tabs(5) + [Enter, Enter, Enter]);
  }

  lemma EnterOverwrites(existing: bool, sandbox: bool, busBackend: int, persistence: int, encrypt: bool,
                        keys: seq<Key>)
    ensures Run(Start(existing, sandbox, busBackend, persistence, encrypt),
                (if existing then [Enter] else []) + keys) ==
            Run(Start(false, sandbox, busBackend, persistence, encrypt), keys)
  {
    if existing {
      var s := Start(true, sandbox, busBackend, persistence, encrypt);
      Run1(Update, s, Enter, keys);
      assert Update(s, Enter) == Start(false, sandbox, busBackend, persistence, encrypt);
    } else {
      assert [] + keys == keys;
    }
  }

  /** Submitted, with all settings as they were. */
  predicate Submits(m: Model, t: Model) {
    t.ending.submitted && t.opts == m.opts
  }

  lemma EndOfSetup(m: Model)
    requires m.Running() && m.phase.Setup? && m.focus == Continue && !m.opts.telemetry
    ensures Submits(m, Run(m, [Enter, Enter, Enter]))
    ensures Run(m, [Enter, Enter, Enter]).ending == m.ending.(submitted := true, startNow := true)
  {
    Run1(Update, m, Enter, [Enter, Enter]);
    var t := Update(m, Enter);
    Run1(Update, t, Enter, [Enter]);
    Run1(Update, Update(t, Enter), Enter, []);
    assert [Enter] + [Enter, Enter] == [Enter, Enter, Enter] && [Enter] + [Enter] == [Enter, Enter]
           && [Enter] + [] == [Enter];
  }

  lemma TabsSubmit(m: Model, fs: seq<Field>, i: nat, n: nat)
    requires m.Running() && m.phase.Setup? && fs == Fields(m) && Between(fs, 0, 13)
    requires i + n < |fs| && m.focus == fs[i] && m.inputs == FocusedFor(m.focus) && fs[i + n] == Continue
    requires !m.opts.telemetry
    ensures Submits(m, Run(m, Tabs(n) + [Enter, Enter, Enter])) && |Tabs(n)| == n
  {
    TabsLength(n);
    TabMovesOn(m, fs);
    assert At(m, fs, i) == m;
    TabsMove(Update, m, fs, i, n, [Enter, Enter, Enter]);
    EndOfSetup(At(m, fs, i + n));
  }

  lemma SetupSubmits(m: Model)
    requires Inv(m) && m.Running() && m.phase.Setup?
    ensures |SetupKeys(m)| <= 15 && Submits(m, Run(m, SetupKeys(m)))
  {
    FieldsAreShown(m, m.focus);
    SetupAscending(m.advExpanded, m.opts);
    SetupSubmitsFrom(m, Fields(m));
  }

  lemma SetupSubmitsFrom(m: Model, fs: seq<Field>)
    requires m.Running() && m.phase.Setup? && fs == Fields(m) && m.focus in fs && m.inputs == FocusedFor(m.focus)
    requires Between(fs, 0, 13) && 1 <= |fs| <= 13 && fs[|fs| - 1] == Continue && !m.opts.telemetry
    ensures |KeysFrom(fs, m.focus)| <= 15 && Submits(m, Run(m, KeysFrom(fs, m.focus)))
  {
    var i := IndexIn(fs, m.focus);
    TabsSubmit(m, fs, i, |fs| - 1 - i);
  }

  /** From every running state at most seventeen keys submit the wizard with all settings as they are, telemetry
      off unless it was answered already. */
  lemma SubmitIsInReach(m: Model)
    requires Inv(m) && m.Running()
    ensures |KeysToSubmit(m)| <= 17 && Submits(m, Run(m, KeysToSubmit(m)))
  {
    match m.phase
    case Summary => SummarySubmits(m);
    case Telemetry => TelemetrySubmits(m);
    case Setup => SetupSubmits(m);
    case Reinit => ReinitSubmits(m);
  }

  lemma SummarySubmits(m: Model)
    requires m.Running() && m.phase.Summary?
    ensures Submits(m, Run(m, [Enter]))
  {
    Run1(Update, m, Enter, []);
    assert [Enter] + [] == [Enter];
  }

  lemma TelemetrySubmits(m: Model)
    requires m.Running() && m.phase.Telemetry? && !m.opts.telemetry
    ensures Submits(m, Run(m, [Rune('n'), Enter]))
  {
    Run1(Update, m, Rune('n'), [Enter]);
    assert [Rune('n')] + [Enter] == [Rune('n'), Enter];
    SummarySubmits(Update(m, Rune('n')));
  }

  lemma ReinitSubmits(m: Model)
    requires Inv(m) && m.Running() && m.phase.Reinit?
    ensures |KeysToSubmit(m)| <= 17 && Submits(m, Run(m, KeysToSubmit(m)))
  {
    var u := Update(m, Left);
    var t := Update(u, Enter);
    assert m.focus == ReinitOverwrite || m.focus == ReinitCancel;
    assert u.focus == ReinitOverwrite;
    assert t == Synced(m.(phase := Setup, focus := DataDir));
    SetupSubmits(t);
    Run1(Update, m, Left, [Enter] + SetupKeys(t));
    Run1(Update, u, Enter, SetupKeys(t));
    assert [Left, Enter] + SetupKeys(t) == [Left] + ([Enter] + SetupKeys(t));
  }
}

/**
 * The `App` component's form state and its submit handler
 * `registrarPlantacao`.
 *
 * `FormState` and the functions over it (`Validated`, `Submit`, `Step`,
 * `Run`) are the specification; the class `App` holds the same state in
 * fields and its methods are proved to move it exactly as the functions say.
 * React applies state updates after the handler returns; the handler only
 * reads fields it has not yet written, so applying each update at once
 * leaves the same final state.
 */
module PlantingApp {
  import opened Wrappers
  import opened JsNumber
  import opened DateShape
  import opened Validation
  import opened Records

  /** The component state: the four form fields, the history list and the error text. */
  datatype FormState = FormState(
    cultura: string,
    dataPlantio: string,
    quantidadeSementes: string,
    soloFertil: bool,
    plantacoes: seq<Record>,
    erro: string)

  /** The state when the component mounts, before any stored history is loaded. */
  const Initial: FormState := FormState("soja", "", "", false, [], "")

  /** `validarDados`: `erro` becomes the text of the first failing check, or empty. */
  function Validated(s: FormState): FormState {
    s.(erro := ErrorText(FirstFailure(s.dataPlantio, s.quantidadeSementes)))
  }

  /** `registrarPlantacao` at time `timestamp`: validate; on success prepend the new record and clear the form. */
  function Submit(s: FormState, timestamp: int): FormState {
    var v := Validated(s);
    if FirstFailure(s.dataPlantio, s.quantidadeSementes) != None then v
    else
      var novo := NewRecord(timestamp, s.cultura, s.dataPlantio, s.quantidadeSementes, s.soloFertil);
      v.(plantacoes := [novo] + s.plantacoes, dataPlantio := "", quantidadeSementes := "", soloFertil := false)
  }

  /** What the user can do on the form: edit a field, or press the register button at some time. */
  datatype Event =
    | EditCultura(cultura: string)
    | EditData(dataPlantio: string)
    | EditQuantidade(quantidadeSementes: string)
    | EditSolo(soloFertil: bool)
    | Press(timestamp: int)

  /** One event: the picker, text inputs and switch replace their field; the button submits. */
  function Step(s: FormState, e: Event): FormState {
    match e
    case EditCultura(c) => s.(cultura := c)
    case EditData(d) => s.(dataPlantio := d)
    case EditQuantidade(q) => s.(quantidadeSementes := q)
    case EditSolo(f) => s.(soloFertil := f)
    case Press(t) => Submit(s, t)
  }

  /** A session: the events applied in order. */
  function Run(s: FormState, events: seq<Event>): FormState
    decreases |events|
  {
    if events == [] then s else Run(Step(s, events[0]), events[1..])
  }

  /** A record that passed validation: shaped date, positive quantity, one of the two soil labels. */
  predicate WellFormed(r: Record) {
    HasDateShape(r.data) && r.quantidade.Some? && IsPositive(r.quantidade.value)
    && (r.solo == Fertile || r.solo == NotFertile)
  }

  /** A rejected submission changes nothing but the error text, which names the failing check. */
  lemma SubmitRejected(s: FormState, timestamp: int)
    requires FirstFailure(s.dataPlantio, s.quantidadeSementes) != None
    ensures Submit(s, timestamp).plantacoes == s.plantacoes
    ensures Submit(s, timestamp).cultura == s.cultura
    ensures Submit(s, timestamp).dataPlantio == s.dataPlantio
    ensures Submit(s, timestamp).quantidadeSementes == s.quantidadeSementes
    ensures Submit(s, timestamp).soloFertil == s.soloFertil
    ensures Submit(s, timestamp).erro == Message(FirstFailure(s.dataPlantio, s.quantidadeSementes).value)
    ensures Submit(s, timestamp).erro != ""
  {
    var f := FirstFailure(s.dataPlantio, s.quantidadeSementes);
    ErrorTextDecodes(f, f);
  }

  /**
   * An accepted submission puts one well-formed record, carrying the
   * timestamp, crop, date and parsed quantity, in front of the old list,
   * clears the error and the date, quantity and soil fields, and keeps the crop.
   */
  lemma SubmitAccepted(s: FormState, timestamp: int)
    requires FirstFailure(s.dataPlantio, s.quantidadeSementes) == None
    ensures var t := Submit(s, timestamp);
      && |t.plantacoes| == |s.plantacoes| + 1
      && t.plantacoes[1..] == s.plantacoes
      && t.plantacoes[0].id == timestamp
      && t.plantacoes[0].cultura == s.cultura
      && t.plantacoes[0].data == s.dataPlantio
      && t.plantacoes[0].quantidade == ParseFloat(s.quantidadeSementes)
      && ShowsFertile(t.plantacoes[0].solo) == s.soloFertil
      && WellFormed(t.plantacoes[0])
      && t.cultura == s.cultura
      && t.dataPlantio == "" && t.quantidadeSementes == "" && !t.soloFertil
      && t.erro == ""
  {
    AcceptedExactly(s.dataPlantio, s.quantidadeSementes);
  }

  /** After a press, the error text is empty exactly when the list grew by one record. */
  lemma ErrorTextTellsOutcome(s: FormState, timestamp: int)
    ensures Submit(s, timestamp).erro == "" <==> |Submit(s, timestamp).plantacoes| == |s.plantacoes| + 1
  {
    var f := FirstFailure(s.dataPlantio, s.quantidadeSementes);
    ErrorTextDecodes(f, f);
  }

  /**
   * Two accepted submissions, with the date, quantity and soil re-entered in
   * between, leave the second record in front of the first, in front of the
   * old list; different timestamps give different ids.
   */
  lemma {:induction false} NewestFirst(s: FormState, t1: int, data2: string, quantidade2: string, solo2: bool, t2: int)
    requires FirstFailure(s.dataPlantio, s.quantidadeSementes) == None
    requires FirstFailure(data2, quantidade2) == None
    ensures var r := Run(s, [Press(t1), EditData(data2), EditQuantidade(quantidade2), EditSolo(solo2), Press(t2)]).plantacoes;
      && r == [NewRecord(t2, s.cultura, data2, quantidade2, solo2),
               NewRecord(t1, s.cultura, s.dataPlantio, s.quantidadeSementes, s.soloFertil)] + s.plantacoes
      && (t1 != t2 ==> r[0].id != r[1].id)
  {
    var r1 := NewRecord(t1, s.cultura, s.dataPlantio, s.quantidadeSementes, s.soloFertil);
    var r2 := NewRecord(t2, s.cultura, data2, quantidade2, solo2);
    assert [r2] + ([r1] + s.plantacoes) == [r2, r1] + s.plantacoes;
    var s1 := Step(s, Press(t1));
    PressEditPress(s, t1, data2, quantidade2, solo2, t2);
    StepHistory(s, Press(t1));
    EditsThenAcceptedPress(s1, data2, quantidade2, solo2, t2);
  }

  /** Re-entering an acceptable date and quantity and pressing the button prepends a record of exactly those entries. */
  lemma EditsThenAcceptedPress(s: FormState, data: string, quantidade: string, solo: bool, t: int)
    requires FirstFailure(data, quantidade) == None
    ensures Step(s.(dataPlantio := data, quantidadeSementes := quantidade, soloFertil := solo), Press(t)).plantacoes
            == [NewRecord(t, s.cultura, data, quantidade, solo)] + s.plantacoes
  {
    StepHistory(s.(dataPlantio := data, quantidadeSementes := quantidade, soloFertil := solo), Press(t));
  }

  /** A press, three edits and a second press amount to two submissions around the three field updates. */
  lemma PressEditPress(s: FormState, t1: int, data2: string, quantidade2: string, solo2: bool, t2: int)
    ensures Run(s, [Press(t1), EditData(data2), EditQuantidade(quantidade2), EditSolo(solo2), Press(t2)])
            == Step(Step(s, Press(t1)).(dataPlantio := data2, quantidadeSementes := quantidade2, soloFertil := solo2), Press(t2))
  {
    var evs := [Press(t1), EditData(data2), EditQuantidade(quantidade2), EditSolo(solo2), Press(t2)];
    var s1 := Step(s, Press(t1));
    var s4 := s1.(dataPlantio := data2, quantidadeSementes := quantidade2, soloFertil := solo2);
    assert evs[1..] == [EditData(data2), EditQuantidade(quantidade2), EditSolo(solo2)] + [Press(t2)];
    assert Run(s, evs) == Run(s1, evs[1..]);
    RunEdits(s1, data2, quantidade2, solo2, [Press(t2)]);
    assert [Press(t2)][1..] == [];
    assert Run(s4, [Press(t2)]) == Step(s4, Press(t2));
  }

  /** Re-entering the date, quantity and soil fields replaces exactly those three fields. */
  lemma RunEdits(s: FormState, data: string, quantidade: string, solo: bool, rest: seq<Event>)
    ensures Run(s, [EditData(data), EditQuantidade(quantidade), EditSolo(solo)] + rest)
            == Run(s.(dataPlantio := data, quantidadeSementes := quantidade, soloFertil := solo), rest)
  {
    var evs := [EditData(data), EditQuantidade(quantidade), EditSolo(solo)] + rest;
    var s1 := s.(dataPlantio := data);
    var s2 := s1.(quantidadeSementes := quantidade);
    assert evs[1..] == [EditQuantidade(quantidade), EditSolo(solo)] + rest;
    assert evs[1..][1..] == [EditSolo(solo)] + rest;
    assert evs[1..][1..][1..] == rest;
    assert Run(s, evs) == Run(s1, evs[1..]);
    assert Run(s1, evs[1..]) == Run(s2, evs[1..][1..]);
  }

  /** `after` is `before` with zero or more well-formed records put in front. */
  predicate GrownAtFront(after: seq<Record>, before: seq<Record>) {
    |after| >= |before|
    && after[|after| - |before|..] == before
    && forall i :: 0 <= i < |after| - |before| ==> WellFormed(after[i])
  }

  /** One event either leaves the history alone or puts one well-formed record in front. */
  lemma StepGrowsAtFront(s: FormState, e: Event)
    ensures GrownAtFront(Step(s, e).plantacoes, s.plantacoes)
    ensures |Step(s, e).plantacoes| <= |s.plantacoes| + 1
  {
    if e.Press? && FirstFailure(s.dataPlantio, s.quantidadeSementes) == None {
      SubmitAccepted(s, e.timestamp);
    }
  }

  lemma GrownAtFrontTransitive(a: seq<Record>, b: seq<Record>, c: seq<Record>)
    requires GrownAtFront(a, b) && GrownAtFront(b, c)
    ensures GrownAtFront(a, c)
  {
    var k := |a| - |b|;
    assert a[|a| - |c|..] == a[k..][|b| - |c|..];
    forall i | 0 <= i < |a| - |c|
      ensures WellFormed(a[i])
    {
      if i >= k {
        assert a[i] == a[k..][i - k] == b[i - k];
      }
    }
  }

  /**
   * Over any session, the history only grows at the front: the old list
   * stays intact at the back, and every record added in front passed
   * validation.
   */
  lemma {:induction false} HistoryGrowsAtFront(s: FormState, events: seq<Event>)
    ensures GrownAtFront(Run(s, events).plantacoes, s.plantacoes)
    decreases |events|
  {
    if events != [] {
      var s1 := Step(s, events[0]);
      StepGrowsAtFront(s, events[0]);
      HistoryGrowsAtFront(s1, events[1..]);
      GrownAtFrontTransitive(Run(s1, events[1..]).plantacoes, s1.plantacoes, s.plantacoes);
    }
  }

  /** Ids strictly decrease from the front of the list: newest first. */
  predicate NewestFirstById(l: seq<Record>) {
    forall i, j :: 0 <= i < j < |l| ==> l[i].id > l[j].id
  }

  /** Every press in `events` happens strictly later than `t0` and than the presses before it. */
  predicate ClockAdvances(events: seq<Event>, t0: int)
    decreases |events|
  {
    events == [] ||
    if events[0].Press? then events[0].timestamp > t0 && ClockAdvances(events[1..], events[0].timestamp)
    else ClockAdvances(events[1..], t0)
  }

  /**
   * If the clock moves forward between presses, the list stays ordered
   * newest first by id, so no two records share an id. The clock is an
   * assumption about `Date.now()`; the handler itself never checks ids.
   */
  lemma {:induction false} OrderedWhileClockAdvances(s: FormState, events: seq<Event>, t0: int)
    requires NewestFirstById(s.plantacoes)
    requires |s.plantacoes| > 0 ==> s.plantacoes[0].id <= t0
    requires ClockAdvances(events, t0)
    ensures NewestFirstById(Run(s, events).plantacoes)
    decreases |events|
  {
    if events != [] {
      var e := events[0];
      var s1 := Step(s, e);
      var t1 := if e.Press? then e.timestamp else t0;
      StepHistory(s, e);
      if e.Press? && FirstFailure(s.dataPlantio, s.quantidadeSementes) == None {
        PrependKeepsOrder(s1.plantacoes[0], s.plantacoes, t0);
      }
      OrderedWhileClockAdvances(s1, events[1..], t1);
    }
  }

  /**
   * What one event does to the history and the crop: an accepted press
   * prepends the new record, other events leave the history alone, and only
   * the picker changes the crop.
   */
  lemma StepHistory(s: FormState, e: Event)
    ensures Step(s, e).cultura == if e.EditCultura? then e.cultura else s.cultura
    ensures Step(s, e).plantacoes
            == if e.Press? && FirstFailure(s.dataPlantio, s.quantidadeSementes) == None
               then [NewRecord(e.timestamp, s.cultura, s.dataPlantio, s.quantidadeSementes, s.soloFertil)] + s.plantacoes
               else s.plantacoes
  {
  }

  /** A record newer than every record of an ordered list can go in front of it. */
  lemma PrependKeepsOrder(r: Record, l: seq<Record>, t0: int)
    requires NewestFirstById(l)
    requires |l| > 0 ==> l[0].id <= t0
    requires r.id > t0
    ensures NewestFirstById([r] + l)
  {
    var m := [r] + l;
    forall i, j | 0 <= i < j < |m|
      ensures m[i].id > m[j].id
    {
      assert m[j] == l[j - 1];
      if i > 0 {
        assert m[i] == l[i - 1];
      }
    }
  }

  /** The component's state, held in fields that the handlers update. */
  class App {
    var cultura: string
    var dataPlantio: string
    var quantidadeSementes: string
    var soloFertil: bool
    var plantacoes: seq<Record>
    var erro: string

    /** The fields as one value. */
    function State(): FormState
      reads this
    {
      FormState(cultura, dataPlantio, quantidadeSementes, soloFertil, plantacoes, erro)
    }

    /** Mounting: crop `soja`, empty text fields, switch off, empty history, no error. */
    constructor ()
      ensures State() == Initial
    {
      cultura := "soja";
      dataPlantio := "";
      quantidadeSementes := "";
      soloFertil := false;
      plantacoes := [];
      erro := "";
    }

    /** The crop picker's change handler. */
    method SetCultura(v: string)
      modifies this
      ensures State() == Step(old(State()), EditCultura(v))
    {
      cultura := v;
    }

    /** The date input's change handler. */
    method SetDataPlantio(v: string)
      modifies this
      ensures State() == Step(old(State()), EditData(v))
    {
      dataPlantio := v;
    }

    /** The quantity input's change handler. */
    method SetQuantidadeSementes(v: string)
      modifies this
      ensures State() == Step(old(State()), EditQuantidade(v))
    {
      quantidadeSementes := v;
    }

    /** The fertile-soil switch's change handler. */
    method SetSoloFertil(v: bool)
      modifies this
      ensures State() == Step(old(State()), EditSolo(v))
    {
      soloFertil := v;
    }

    /** Runs the three checks in order; stops at the first failure and leaves its message in `erro`. */
    method ValidarDados() returns (ok: bool)
      modifies this
      ensures ok <==> FirstFailure(dataPlantio, quantidadeSementes) == None
      ensures State() == Validated(old(State()))
    {
      erro := "";
      if dataPlantio == "" || quantidadeSementes == "" {
        erro := Message(MissingField);
        assert FirstFailure(dataPlantio, quantidadeSementes) == Some(MissingField);
        return false;
      }
      if !IsDateText(dataPlantio) {
        erro := Message(BadDateFormat);
        assert FirstFailure(dataPlantio, quantidadeSementes) == Some(BadDateFormat);
        return false;
      }
      var n := ParseFloat(quantidadeSementes);
      if n.None? || !IsPositive(n.value) {
        erro := Message(BadQuantity);
        assert FirstFailure(dataPlantio, quantidadeSementes) == Some(BadQuantity);
        return false;
      }
      return true;
    }

    /** The register button's handler, with `Date.now()` passed in as `timestamp`. */
    method RegistrarPlantacao(timestamp: int)
      modifies this
      ensures State() == Submit(old(State()), timestamp)
      ensures old(FirstFailure(dataPlantio, quantidadeSementes)) == None ==> plantacoes[1..] == old(plantacoes)
      ensures old(FirstFailure(dataPlantio, quantidadeSementes)) != None ==> plantacoes == old(plantacoes)
    {
      var ok := ValidarDados();
      if !ok {
        return;
      }
      var novoRegistro := NewRecord(timestamp, cultura, dataPlantio, quantidadeSementes, soloFertil);
      plantacoes := [novoRegistro] + plantacoes;
      dataPlantio := "";
      quantidadeSementes := "";
      soloFertil := false;
    }
  }
}

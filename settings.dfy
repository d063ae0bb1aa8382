/**
 * The teaching settings and the change detection of update_settings in app.py.
 * Every field of a candidate is compared with the current value: the five text
 * and flag fields by inequality, the temperature with a tolerance of 1e-9.
 * A field that differs is adopted, and the update reports whether any did.
 */
module SettingsStore {

  datatype Settings = Settings(
    model: string,
    temperature: real,
    level: string,
    focus: string,
    style: string,
    socratic: bool)

  const DefaultModel: string := "gpt-4"
  const DefaultTemperature: real := 0.3
  const DefaultLevel: string := "Beginner"
  const DefaultFocus: string := "Fundamentals"
  const DefaultStyle: string := "Explain, then example, then short exercise"
  const DefaultSocratic: bool := true

  /** The tolerance below which two temperatures count as equal. */
  const Eps: real := 0.000000001

  function Abs(x: real): real {
    if x < 0.0 then -x else x
  }

  /** Whether a new temperature `t` is far enough from `cur` to be adopted. */
  predicate TemperatureMoved(cur: real, t: real) {
    Abs(t - cur) > Eps
  }

  /** What update_settings reports: some field of `cand` differs from `cur`. */
  predicate Differs(cur: Settings, cand: Settings) {
    cand.model != cur.model
    || TemperatureMoved(cur.temperature, cand.temperature)
    || cand.level != cur.level
    || cand.focus != cur.focus
    || cand.style != cur.style
    || cand.socratic != cur.socratic
  }

  /**
   * The settings after update_settings: the candidate's text and flag fields,
   * and a temperature that is the candidate's or, if that one lies within the
   * tolerance, the current one.
   */
  function Updated(cur: Settings, cand: Settings): (r: Settings)
    ensures r.model == cand.model && r.level == cand.level && r.focus == cand.focus
    ensures r.style == cand.style && r.socratic == cand.socratic
    ensures r.temperature == cand.temperature || r.temperature == cur.temperature
    ensures !TemperatureMoved(cur.temperature, cand.temperature) ==> r.temperature == cur.temperature
    ensures Abs(r.temperature - cand.temperature) <= Eps
  {
    if TemperatureMoved(cur.temperature, cand.temperature) then cand
    else cand.(temperature := cur.temperature)
  }

  /** The update reports a change exactly when the stored settings change. */
  lemma DiffersIffChanged(cur: Settings, cand: Settings)
    ensures Differs(cur, cand) <==> Updated(cur, cand) != cur
  {
    if TemperatureMoved(cur.temperature, cand.temperature) {
      assert Updated(cur, cand).temperature != cur.temperature;
    }
  }

  /** A second update with the same candidate reports no change and keeps the settings. */
  lemma UpdateIdempotent(cur: Settings, cand: Settings)
    ensures !Differs(Updated(cur, cand), cand)
    ensures Updated(Updated(cur, cand), cand) == Updated(cur, cand)
  {
  }

  /**
   * The candidate is adopted whole exactly when its temperature moved or was
   * already equal; a temperature within the tolerance but different is dropped.
   */
  lemma AdoptedWhole(cur: Settings, cand: Settings)
    ensures Updated(cur, cand) == cand
        <==> TemperatureMoved(cur.temperature, cand.temperature) || cur.temperature == cand.temperature
  {
  }

  /** A concrete candidate whose temperature is not adopted: 0.3 stays when 0.3 + Eps/2 is asked for. */
  lemma NearbyTemperatureKept()
    ensures var cur := Settings(DefaultModel, 0.3, DefaultLevel, DefaultFocus, DefaultStyle, true);
            var cand := cur.(temperature := 0.3 + Eps / 2.0);
            !Differs(cur, cand) && Updated(cur, cand) == cur && Updated(cur, cand) != cand
  {
  }
}

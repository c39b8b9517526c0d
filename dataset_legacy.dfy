/**
 * The older copy of MojDataSet (ML-Klasifikacija.Model/MojDataSet.cs) shares
 * the constructor and the split with ClassicDataSet; only its evaluation
 * differs, which is not written yet.
 */
module LegacyDataSet {
  import opened Common
  import opened ClassicDataSet

  /** Evaluiraj of the older copy: always throws NotImplementedException. */
  function EvaluirajNeimplementirano(skup: MojDataSet): (r: Result<EvaluacijaRezultat>)
    ensures r.Err? && r.greska == NotImplemented
  {
    Err(NotImplemented)
  }
}

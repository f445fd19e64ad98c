/**
 * A planting record as `registrarPlantacao` builds it and the history list
 * shows it.
 */
module Records {
  import opened Wrappers
  import opened JsNumber

  /**
   * `id` is the creation timestamp in milliseconds; `quantidade` is what
   * `parseFloat` made of the quantity text (`None` for NaN); `solo` is a
   * display label, and the boolean it came from is not kept.
   */
  datatype Record = Record(id: int, cultura: string, data: string, quantidade: Option<Num>, solo: string)

  const Fertile: string := "Fértil"
  const NotFertile: string := "Não Fértil"

  /** The soil label stored in a record for the state of the fertile-soil switch. */
  function SoilLabel(soloFertil: bool): (text: string)
    ensures text == Fertile || text == NotFertile
    ensures text == Fertile <==> soloFertil
  {
    if soloFertil then Fertile else NotFertile
  }

  /** How the history list reads a label back: `item.solo === 'Fértil'` picks the colour. */
  predicate ShowsFertile(solo: string) {
    solo == Fertile
  }

  /** The list recovers the switch state from the label: the label loses nothing. */
  lemma SoilLabelRoundTrip(soloFertil: bool)
    ensures ShowsFertile(SoilLabel(soloFertil)) == soloFertil
  {
  }

  /** The record built from the form at a given timestamp. */
  function NewRecord(timestamp: int, cultura: string, dataPlantio: string, quantidadeSementes: string, soloFertil: bool): (r: Record)
    ensures r.id == timestamp
    ensures r.cultura == cultura && r.data == dataPlantio
    ensures r.quantidade == ParseFloat(quantidadeSementes)
    ensures ShowsFertile(r.solo) == soloFertil
    ensures r.solo == Fertile || r.solo == NotFertile
  {
    Record(timestamp, cultura, dataPlantio, ParseFloat(quantidadeSementes), SoilLabel(soloFertil))
  }
}

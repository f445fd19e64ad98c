/**
 * The three checks of `validarDados`, in their fixed order: required
 * fields, date shape, positive quantity. The first check that fails decides
 * the single error message shown to the user; later checks are not run.
 */
module Validation {
  import opened Wrappers
  import opened Decimal
  import opened JsNumber
  import opened DateShape

  datatype ValidationError = MissingField | BadDateFormat | BadQuantity

  /** The message `validarDados` stores in `erro` for each failing check. */
  function Message(e: ValidationError): string {
    match e
    case MissingField => "Todos os campos obrigatórios devem ser preenchidos."
    case BadDateFormat => "Formato de data inválido. Use DD/MM/AAAA."
    case BadQuantity => "A quantidade de sementes deve ser um número positivo."
  }

  /** `!isNaN(parseFloat(q)) && !(parseFloat(q) <= 0)`. */
  predicate QuantityAccepted(q: string) {
    var n := ParseFloat(q);
    n.Some? && IsPositive(n.value)
  }

  /** The first check that fails on the two text fields, or `None` when all pass. */
  function FirstFailure(dataPlantio: string, quantidadeSementes: string): Option<ValidationError> {
    if dataPlantio == "" || quantidadeSementes == "" then Some(MissingField)
    else if !IsDateText(dataPlantio) then Some(BadDateFormat)
    else if !QuantityAccepted(quantidadeSementes) then Some(BadQuantity)
    else None
  }

  /** What `erro` holds once validation is over: empty when every check passed. */
  function ErrorText(failure: Option<ValidationError>): string {
    match failure
    case None => ""
    case Some(e) => Message(e)
  }

  /** The error text tells which check failed, and is empty exactly when none did. */
  lemma ErrorTextDecodes(f: Option<ValidationError>, g: Option<ValidationError>)
    ensures ErrorText(f) == "" <==> f == None
    ensures ErrorText(f) == ErrorText(g) ==> f == g
  {
    var m1 := Message(MissingField);
    var m2 := Message(BadDateFormat);
    var m3 := Message(BadQuantity);
    assert |m1| == 51 && |m2| == 41 && |m3| == 53;
  }

  /** An empty date or quantity is reported as a missing field, whatever the other field holds. */
  lemma RequiredFieldsFirst(dataPlantio: string, quantidadeSementes: string)
    ensures FirstFailure(dataPlantio, quantidadeSementes) == Some(MissingField)
            <==> dataPlantio == "" || quantidadeSementes == ""
  {
  }

  /** The date check runs second and rejects exactly the texts without the `DD/MM/YYYY` shape. */
  lemma DateCheckSecond(dataPlantio: string, quantidadeSementes: string)
    ensures FirstFailure(dataPlantio, quantidadeSementes) == Some(BadDateFormat)
            <==> dataPlantio != "" && quantidadeSementes != "" && !HasDateShape(dataPlantio)
  {
    DatePatternIsShape(dataPlantio);
  }

  /** The quantity check is reached only when both earlier checks pass, and fails exactly on NaN or a value at most 0. */
  lemma QuantityCheckThird(dataPlantio: string, quantidadeSementes: string)
    ensures FirstFailure(dataPlantio, quantidadeSementes) == Some(BadQuantity)
            <==> quantidadeSementes != "" && HasDateShape(dataPlantio)
                 && (ParseFloat(quantidadeSementes).None? || !IsPositive(ParseFloat(quantidadeSementes).value))
  {
    DatePatternIsShape(dataPlantio);
  }

  /** Validation passes exactly when the date has the shape and the quantity reads as a positive number. */
  lemma AcceptedExactly(dataPlantio: string, quantidadeSementes: string)
    ensures FirstFailure(dataPlantio, quantidadeSementes) == None
            <==> HasDateShape(dataPlantio) && QuantityAccepted(quantidadeSementes)
  {
    DatePatternIsShape(dataPlantio);
    EmptyIsNaN();
  }

  /** An empty field is reported first, even beside a malformed quantity; a dash is not a date separator. */
  lemma SamplesBeforeQuantity()
    ensures FirstFailure("", "abc") == Some(MissingField)
    ensures FirstFailure("15/09/2025", "") == Some(MissingField)
    ensures FirstFailure("15-09-2025", "10") == Some(BadDateFormat)
  {
    ShapeOnly();
  }

  /**
   * A whole number, optionally followed by text that does not continue the
   * numeric literal (a unit such as `kg`), passes beside a date of the right
   * shape exactly when it is not zero; zero fails the quantity check.
   */
  lemma WholeNumberQuantity(dataPlantio: string, n: nat, suffix: string)
    requires HasDateShape(dataPlantio)
    requires suffix == [] || !(IsDigit(suffix[0]) || suffix[0] == '.' || suffix[0] == 'e' || suffix[0] == 'E')
    ensures FirstFailure(dataPlantio, DecimalText(n) + suffix) == if n > 0 then None else Some(BadQuantity)
  {
    ParseDecimalText(n, suffix);
    QuantityCheckThird(dataPlantio, DecimalText(n) + suffix);
    AcceptedExactly(dataPlantio, DecimalText(n) + suffix);
  }

  /**
   * A quantity whose first character cannot start a number (not white space,
   * a sign, a digit, a point or the `I` of `Infinity`) is NaN and fails the
   * quantity check beside a date of the right shape.
   */
  lemma NonNumericQuantityRejected(dataPlantio: string, q: string)
    requires HasDateShape(dataPlantio)
    requires q != [] && !(IsStrWhiteSpace(q[0]) || q[0] == '+' || q[0] == '-' || IsDigit(q[0]) || q[0] == '.' || q[0] == 'I')
    ensures FirstFailure(dataPlantio, q) == Some(BadQuantity)
  {
    TrimStartStops(q);
    assert SplitSign(q) == (false, q);
    NaNExactly(q);
    QuantityCheckThird(dataPlantio, q);
  }

  /** Any negative whole number is rejected by the quantity check once the date has the right shape. */
  lemma NegativeQuantityRejected(dataPlantio: string, n: nat)
    requires HasDateShape(dataPlantio)
    ensures FirstFailure(dataPlantio, ['-'] + DecimalText(n)) == Some(BadQuantity)
  {
    NegatedDecimalText(n);
    QuantityCheckThird(dataPlantio, ['-'] + DecimalText(n));
  }
}

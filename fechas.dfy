/**
 * Calendar dates as the application reads and writes them: Python's
 * `date.fromisoformat` / `date.isoformat` on "YYYY-MM-DD" text, and the
 * athlete forms' age rule (whole years between a birth date and today).
 */
module Fechas {
  import opened Wrappers
  import opened Numeros


  datatype Fecha = Fecha(anio: int, mes: int, dia: int)

  predicate Bisiesto(anio: int) {
    anio % 4 == 0 && (anio % 100 != 0 || anio % 400 == 0)
  }

  function DiasDelMes(anio: int, mes: int): int {
    if mes == 2 then (if Bisiesto(anio) then 29 else 28)
    else if mes == 4 || mes == 6 || mes == 9 || mes == 11 then 30
    else 31
  }

  /** A date `datetime.date` can hold. */
  predicate FechaValida(f: Fecha) {
    1 <= f.anio <= 9999 && 1 <= f.mes <= 12 && 1 <= f.dia <= DiasDelMes(f.anio, f.mes)
  }

  /** `date.fromisoformat(s)` on the form "YYYY-MM-DD"; None where it raises
      ValueError (a wrong shape or a day the calendar does not have). */
  function LeerFechaIso(s: string): (r: Option<Fecha>)
    ensures r.Some? ==> FechaValida(r.value)
  {
    if |s| == 10 && s[4] == '-' && s[7] == '-' && AllDigits(s[..4]) && AllDigits(s[5..7]) && AllDigits(s[8..]) then
      var f := Fecha(DigitsValue(s[..4]), DigitsValue(s[5..7]), DigitsValue(s[8..]));
      if FechaValida(f) then Some(f) else None
    else None
  }

  /** `n` written with exactly `k` digits, zero-padded on the left. */
  function Cifras(n: nat, k: nat): (s: string)
    ensures |s| == k && AllDigits(s)
  {
    if k == 0 then [] else Cifras(n / 10, k - 1) + [DigitChar(n % 10)]
  }

  /** Reading `k` padded digits gives back any number that fits in them. */
  lemma {:induction false} CifrasValor(n: nat, k: nat)
    requires n < Pow10(k)
    ensures DigitsValue(Cifras(n, k)) == n
  {
    if k > 0 {
      var s := Cifras(n, k);
      assert s[..|s| - 1] == Cifras(n / 10, k - 1);
      CifrasValor(n / 10, k - 1);
    }
  }

  /** `date.isoformat()`: "YYYY-MM-DD" with zero padding. */
  function FechaIso(f: Fecha): (s: string)
    requires FechaValida(f)
    ensures |s| == 10
  {
    Cifras(f.anio, 4) + "-" + Cifras(f.mes, 2) + "-" + Cifras(f.dia, 2)
  }

  /** Parsing what `isoformat` writes gives the date back. */
  lemma FechaIsoRoundTrip(f: Fecha)
    requires FechaValida(f)
    ensures LeerFechaIso(FechaIso(f)) == Some(f)
  {
    var s := FechaIso(f);
    assert s[..4] == Cifras(f.anio, 4);
    assert s[5..7] == Cifras(f.mes, 2);
    assert s[8..] == Cifras(f.dia, 2);
    assert Pow10(4) == 10000 && Pow10(2) == 100;
    CifrasValor(f.anio, 4);
    CifrasValor(f.mes, 2);
    CifrasValor(f.dia, 2);
  }
  /** Calendar order: year, then month, then day. */
  predicate AntesOIgual(a: Fecha, b: Fecha) {
    a.anio < b.anio || (a.anio == b.anio && (a.mes < b.mes || (a.mes == b.mes && a.dia <= b.dia)))
  }

  /** The `k`-th birthday of someone born on `nacimiento`. */
  function Cumpleanos(nacimiento: Fecha, k: int): Fecha {
    Fecha(nacimiento.anio + k, nacimiento.mes, nacimiento.dia)
  }

  /** The age effect of the athlete forms: the difference of the years, one
      less while this year's birthday (month, then day) has not come; a
      negative result is shown as no age. The result is the number of
      birthdays already reached, and there is none exactly when the birth
      date is later than today. */
  function EdadCumplida(hoy: Fecha, nacimiento: Fecha): (r: Option<nat>)
    ensures r.None? <==> !AntesOIgual(nacimiento, hoy)
    ensures r.Some? ==>
      AntesOIgual(Cumpleanos(nacimiento, r.value), hoy) && !AntesOIgual(Cumpleanos(nacimiento, r.value + 1), hoy)
  {
    var edad := hoy.anio - nacimiento.anio;
    var mes := hoy.mes - nacimiento.mes;
    var edadCalculada := if mes < 0 || (mes == 0 && hoy.dia < nacimiento.dia) then edad - 1 else edad;
    if edadCalculada >= 0 then Some(edadCalculada) else None
  }

  /** A year later the same person is exactly one year older. */
  lemma EdadUnAnioDespues(hoy: Fecha, nacimiento: Fecha)
    requires EdadCumplida(hoy, nacimiento).Some?
    ensures EdadCumplida(Fecha(hoy.anio + 1, hoy.mes, hoy.dia), nacimiento) == Some(EdadCumplida(hoy, nacimiento).value + 1)
  {
  }

  /** On the birthday itself the new year already counts, the day before
      it does not. */
  lemma EdadEnCumpleanos(nacimiento: Fecha, k: nat)
    ensures EdadCumplida(Cumpleanos(nacimiento, k), nacimiento) == Some(k)
    ensures k > 0 ==>
      EdadCumplida(Fecha(nacimiento.anio + k, nacimiento.mes, nacimiento.dia - 1), nacimiento) == Some(k - 1)
  {
  }

  /** The age shown for a birth date typed as text: none when the text is
      not a date. */
  function EdadTexto(hoy: Fecha, fechaNacimiento: string): (r: Option<nat>)
    ensures r.Some? ==> LeerFechaIso(fechaNacimiento).Some?
  {
    match LeerFechaIso(fechaNacimiento)
    case None => None
    case Some(nacimiento) => EdadCumplida(hoy, nacimiento)
  }

  /** A valid birth date typed in ISO form gives the age of that date. */
  lemma EdadTextoIso(hoy: Fecha, nacimiento: Fecha)
    requires FechaValida(nacimiento)
    ensures EdadTexto(hoy, FechaIso(nacimiento)) == EdadCumplida(hoy, nacimiento)
  {
    FechaIsoRoundTrip(nacimiento);
  }
}

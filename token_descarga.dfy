/**
 * The `tokens_descarga` table row: a short-lived secure-download token for
 * one clinical history. A token expires two hours after it is issued and
 * allows at most three failed document checks.
 *
 * Times are whole seconds on the server's UTC clock; the clock and the
 * random token generator (`uuid4().hex`) are parameters of the constructor.
 * The surrogate primary key `id` is not modelled: the token string is the
 * key of the table in `DescargaSegura`.
 */
module TokenModelo {
  import opened Wrappers

  /** `timedelta(hours=2)`, in seconds. */
  const ValidezSegundos: int := 2 * 60 * 60

  /** Failed document checks after which the next attempt locks the token. */
  const MaxIntentos: int := 3

  predicate IsHexDigit(c: char) {
    ('0' <= c <= '9') || ('a' <= c <= 'f')
  }

  /** The shape of `uuid.uuid4().hex`: 32 lower-case hexadecimal digits. */
  predicate IsUuidHex(s: string) {
    |s| == 32 && forall i :: 0 <= i < |s| ==> IsHexDigit(s[i])
  }

  /** A snapshot of one row: the values the endpoints read and write. */
  datatype Row = Row(
    historiaId: string,
    deportistaId: string,
    numeroDocumento: string,
    intentosFallidos: int,
    bloqueado: bool,
    fechaCreacion: int,
    fechaExpiracion: int,
    usado: bool,
    fechaUso: Option<int>)
  {
    /** Neither locked nor verified yet: the state issuance supersedes. */
    predicate Activo() {
      !bloqueado && !usado
    }
  }

  class TokenDescarga {
    var token: string
    var historiaId: string
    var deportistaId: string
    var numeroDocumento: string
    var intentosFallidos: int
    var bloqueado: bool
    var fechaCreacion: int
    var fechaExpiracion: int
    var usado: bool
    var fechaUso: Option<int>

    /**
     * `TokenDescarga(**kwargs)`: the column defaults (no failures, not
     * locked, not used, no use time, created now), then a generated token
     * when none was given (or an empty one) and an expiry two hours from now
     * when none was given.
     */
    constructor (token: Option<string>, historiaId: string, deportistaId: string,
                 numeroDocumento: string, fechaExpiracion: Option<int>,
                 now: int, generado: string)
      requires IsUuidHex(generado)
      ensures this.token == (if token.Some? && token.value != "" then token.value else generado)
      ensures this.token != ""
      ensures this.fechaExpiracion == fechaExpiracion.GetOr(now + ValidezSegundos)
      ensures this.historiaId == historiaId && this.deportistaId == deportistaId
      ensures this.numeroDocumento == numeroDocumento
      ensures intentosFallidos == 0 && !bloqueado && !usado && fechaUso == None
      ensures fechaCreacion == now
      ensures Snapshot() == NuevaFila(historiaId, deportistaId, numeroDocumento, fechaExpiracion, now)
    {
      this.historiaId := historiaId;
      this.deportistaId := deportistaId;
      this.numeroDocumento := numeroDocumento;
      intentosFallidos := 0;
      bloqueado := false;
      fechaCreacion := now;
      usado := false;
      fechaUso := None;
      if token.Some? && token.value != "" {
        this.token := token.value;
      } else {
        this.token := generado;
      }
      if fechaExpiracion.Some? {
        this.fechaExpiracion := fechaExpiracion.value;
      } else {
        this.fechaExpiracion := now + ValidezSegundos;
      }
    }

    /** The current values of the row. */
    function Snapshot(): Row
      reads this
    {
      Row(historiaId, deportistaId, numeroDocumento, intentosFallidos, bloqueado,
          fechaCreacion, fechaExpiracion, usado, fechaUso)
    }
  }

  /** The row a freshly constructed token holds: nothing has happened to it
      yet, and without an explicit expiry it lives exactly two hours. */
  function NuevaFila(historiaId: string, deportistaId: string, numeroDocumento: string,
                     fechaExpiracion: Option<int>, now: int): (r: Row)
    ensures r.Activo() && r.intentosFallidos == 0 && r.fechaUso == None
    ensures r.fechaCreacion == now
    ensures fechaExpiracion.None? ==> r.fechaExpiracion - r.fechaCreacion == ValidezSegundos
  {
    Row(historiaId, deportistaId, numeroDocumento, 0, false, now,
        fechaExpiracion.GetOr(now + ValidezSegundos), false, None)
  }
}

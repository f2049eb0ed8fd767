/** The certificate renewal rule of TLSCertsManager.GetCerts
    (utils/fetch.go). Time is an integer number of seconds; reading the
    certificate files is the parameter `load`, and parsing a certificate is
    reduced to the NotAfter time it yields, if any. */
module TlsCerts {
  import opened Wrappers

  /** A tls.Certificate as CertExpire sees it: the NotAfter time of its
      first DER block when x509.ParseCertificate accepts it, None otherwise. */
  datatype Cert = Cert(notAfter: Option<int>)

  /** What tlsCerts returned: the certificates (None for the nil slice it
      returns when neither a proxy nor a user key is configured), or the
      error. */
  datatype LoadResult = Loaded(loaded: Option<seq<Cert>>) | LoadError(err: string)

  /** The slice a caller sees: a nil slice is an empty one. */
  function SliceOf(certs: Option<seq<Cert>>): seq<Cert> {
    match certs
    case Some(cs) => cs
    case None => []
  }

  /** Go's zero time.Time (January 1, year 1, UTC) in Unix seconds, which
      CertExpire returns when no certificate parses. */
  const ZeroTime: int := -62135596800

  /** The grace period, in seconds, granted when a refresh fails. */
  const GracePeriod: int := 600

  /** Index of the first certificate that parses. */
  function FirstParsed(certs: seq<Cert>): (r: Option<nat>)
    ensures r.Some? ==> r.value < |certs| && certs[r.value].notAfter.Some?
    ensures r.Some? ==> forall j :: 0 <= j < r.value ==> certs[j].notAfter.None?
    ensures r.None? ==> forall j :: 0 <= j < |certs| ==> certs[j].notAfter.None?
    decreases |certs|
  {
    if |certs| == 0 then None
    else if certs[0].notAfter.Some? then Some(0)
    else match FirstParsed(certs[1..])
      case None => None
      case Some(k) => Some(k + 1)
  }

  /** CertExpire: the NotAfter time of the first certificate that parses,
      or the zero time. */
  method CertExpire(certs: seq<Cert>) returns (notAfter: int)
    ensures FirstParsed(certs).Some? ==> notAfter == certs[FirstParsed(certs).value].notAfter.value
    ensures FirstParsed(certs).None? ==> notAfter == ZeroTime
  {
    notAfter := ZeroTime;
    var i := 0;
    while i < |certs|
      invariant 0 <= i <= |certs|
      invariant forall j :: 0 <= j < i ==> certs[j].notAfter.None?
    {
      if certs[i].notAfter.Some? {
        notAfter := certs[i].notAfter.value;
        return;
      }
      i := i + 1;
    }
  }

  /** The NotAfter time CertExpire computes, for use in contracts. */
  function ExpireOf(certs: seq<Cert>): int {
    match FirstParsed(certs)
    case Some(k) => certs[k].notAfter.value
    case None => ZeroTime
  }

  class TLSCertsManager {
    /** Certs, None for a nil slice. */
    var certs: Option<seq<Cert>>
    /** Expire: the time of the last refresh (or the end of a grace period). */
    var expire: int

    constructor ()
      ensures certs.None? && expire == ZeroTime
    {
      certs := None;
      expire := ZeroTime;
    }

    /** GetCerts at time `now`. A refresh happens when the certificates are
        nil or more than `renewInterval` seconds passed since `expire`; the
        refresh stamps `expire` with `now` and loads. A load that finds no
        credentials leaves the certificates nil, so the next call refreshes
        again. A failed load keeps the old certificates and extends `expire`
        by the grace period when they stay valid past it; with nil
        certificates it is fatal (log.Fatal). */
    method GetCerts(now: int, renewInterval: int, load: LoadResult) returns (r: Outcome<seq<Cert>>)
      modifies this
      ensures !(old(certs).None? || now - old(expire) > renewInterval) ==>
        certs == old(certs) && expire == old(expire) && r == Ok(old(certs).value)
      ensures (old(certs).None? || now - old(expire) > renewInterval) && load.Loaded? ==>
        certs == load.loaded && expire == now && r == Ok(SliceOf(load.loaded))
      ensures (old(certs).None? || now - old(expire) > renewInterval) && load.LoadError? && old(certs).Some? ==>
        && certs == old(certs)
        && r == Ok(old(certs).value)
        && expire == (if ExpireOf(old(certs).value) > now + GracePeriod then now + GracePeriod else now)
      ensures old(certs).None? && load.LoadError? ==> r == Panic("ERROR " + load.err)
      ensures r.Ok? ==> r.value == SliceOf(certs)
    {
      if certs.None? || now - expire > renewInterval {
        expire := now;
        match load {
          case Loaded(loaded) =>
            certs := loaded;
          case LoadError(err) =>
            if certs.Some? {
              var ts := now + GracePeriod;
              var notAfter := CertExpire(certs.value);
              if notAfter > ts {
                expire := ts;
              }
            } else {
              return Panic("ERROR " + err);
            }
        }
      }
      r := Ok(SliceOf(certs));
    }
  }
}

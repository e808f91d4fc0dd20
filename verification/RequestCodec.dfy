/** Complete processor requests on the wire, and the digest that binds a request to its content. */
module RequestCodec {
  import opened Wrappers
  import CloudLink
  import opened Frames
  import opened Tasks
  import opened FrameCodec

  datatype Options = Options(horizon: nat, quantiles: seq<real>)

  datatype OptionsWire = OptionsWire(horizon: nat, quantiles: Option<seq<real>>)

  datatype Request = Request(requestId: string, task: Identity, binding: Identity, frame: Frame, submittedAt: nat,
                             deadline: nat, contract: string, artifact: Option<Artifact>, digest: string,
                             options: Options)

  datatype RequestWire = RequestWire(requestId: string, submittedAt: Stamp, deadline: Stamp, task: Identity,
                                     binding: Identity, contract: string, artifact: Option<Artifact>, frame: FrameWire,
                                     options: OptionsWire, digest: string)

  /** What the digest is taken over, and the digest: SHA-256 of its canonical JSON. */
  datatype Basis = Basis(task: Identity, binding: Identity, contract: string, artifact: Option<Artifact>,
                         frame: FrameWire, options: OptionsWire)

  type Digester = Basis -> string

  predicate HexDigit(c: char) { '0' <= c <= '9' || 'a' <= c <= 'f' || 'A' <= c <= 'F' }

  predicate RequestUuid(s: string) {
    && |s| == 36 && '1' <= s[14] <= '8' && s[19] in "89abAB"
    && forall i :: 0 <= i < 36 ==> if i in {8, 13, 18, 23} then s[i] == '-' else HexDigit(s[i])
  }

  predicate IdentityOk(i: Identity) { WireIdentifier(i.id) && i.revision > 0 }

  predicate SelectorOk(a: Option<Artifact>) {
    ArtifactOk(a) && (a.Some? && a.value.digest.Some? ==> CloudLink.DigestText(a.value.digest.value))
  }

  predicate ValidOptions(o: Options) {
    && o.horizon > 0 && (forall i :: 0 <= i < |o.quantiles| ==> 0.0 < o.quantiles[i] < 1.0)
    && forall i, j :: 0 <= i < j < |o.quantiles| ==> o.quantiles[i] < o.quantiles[j]
  }

  /** What every request satisfies by construction. */
  predicate ValidRequest(r: Request) {
    && ValidFrame(r.frame) && ValidOptions(r.options) && r.deadline > r.submittedAt && r.deadline > r.frame.asOf
    && NotBlank(r.requestId) && NotBlank(r.contract) && NotBlank(r.digest)
  }

  predicate OptionsOk(o: Options) { o.horizon <= MAX_FORECAST_POINTS && |o.quantiles| <= MAX_QUANTILES }

  function WireOptions(o: Options): OptionsWire {
    OptionsWire(o.horizon, if o.quantiles == [] then None else Some(o.quantiles))
  }

  function DomainOptions(w: OptionsWire): Options {
    Options(w.horizon, if w.quantiles.None? then [] else w.quantiles.value)
  }

  /** `options_from_wire`: an explicit empty list is refused. */
  predicate OptionsDecodable(w: OptionsWire) {
    w.quantiles != Some([]) && OptionsOk(DomainOptions(w)) && ValidOptions(DomainOptions(w))
  }

  predicate HorizonOk(f: Frame, o: Options) { f.future.Some? ==> |f.future.value.timestamps| == o.horizon }

  /** `compute_input_digest`. */
  function ComputeDigest(digester: Digester, task: Identity, binding: Identity, contract: string,
                         artifact: Option<Artifact>, frame: Frame, options: Options): Option<string> {
    if WireIdentifier(contract) && HorizonOk(frame, options) && IdentityOk(task) && IdentityOk(binding)
      && SelectorOk(artifact)
       && FrameToWire(frame).Some? && OptionsOk(options)
    then Some(digester(Basis(task, binding, contract, artifact, FrameToWire(frame).value, WireOptions(options))))
    else None
  }

  function DigestOf(digester: Digester, r: Request): Option<string> {
    ComputeDigest(digester, r.task, r.binding, r.contract, r.artifact, r.frame, r.options)
  }

  function RequestToWire(digester: Digester, r: Request): Option<RequestWire> {
    if RequestUuid(r.requestId) && CloudLink.DigestText(r.digest) && DigestOf(digester, r) == Some(r.digest)
       && r.submittedAt <= LAST_FORMATTED && r.deadline <= LAST_FORMATTED
    then Some(RequestWire(r.requestId, Stamp(r.submittedAt), Stamp(r.deadline), r.task, r.binding, r.contract,
                          r.artifact, FrameToWire(r.frame).value, WireOptions(r.options), r.digest))
    else None
  }

  function RequestFromWire(digester: Digester, w: RequestWire): Option<Request> {
    var frame := FrameFromWire(w.frame);
    if !RequestUuid(w.requestId) || !WireIdentifier(w.contract) || !CloudLink.DigestText(w.digest)
      || !IdentityOk(w.task)
       || !IdentityOk(w.binding) || w.submittedAt.ms > LAST_PARSED || w.deadline.ms > LAST_PARSED
         || !SelectorOk(w.artifact)
       || frame.None? || !OptionsDecodable(w.options) || !HorizonOk(frame.value, DomainOptions(w.options)) then None
    else
      var r := Request(w.requestId, w.task, w.binding, frame.value, w.submittedAt.ms, w.deadline.ms, w.contract,
                       w.artifact, w.digest, DomainOptions(w.options));
      if DigestOf(digester, r) == Some(w.digest) && ValidRequest(r) then Some(r) else None
  }

  /** Encoding passes through the decoder before anything is written. */
  function Encode(digester: Digester, r: Request): Option<RequestWire> {
    var wire := RequestToWire(digester, r);
    if wire.None? then None
    else
      var checked := RequestFromWire(digester, wire.value);
      if checked.None? then None else RequestToWire(digester, checked.value)
  }

  function Decode(digester: Digester, w: RequestWire): Option<Request> { RequestFromWire(digester, w) }

  // ---------------------------------------------------------------- the round trip

  function NormalRequest(r: Request): Request { r.(frame := Normal(r.frame)) }

  lemma OptionsReturn(o: Options)
    ensures DomainOptions(WireOptions(o)) == o
  {}

  lemma HorizonUnchanged(f: Frame, o: Options)
    ensures HorizonOk(Normal(f), o) <==> HorizonOk(f, o)
  {}

  /** What a digest binds: for a digester that tells the two apart, equal digests mean equal task, binding, contract,
      artifact, frame on the wire and options, and nothing else decides. */
  lemma DigestBinds(digester: Digester, a: Request, b: Request)
    requires DigestOf(digester, a).Some? && DigestOf(digester, b).Some?
    requires var f, g := FrameToWire(a.frame).value, FrameToWire(b.frame).value;
             var x := Basis(a.task, a.binding, a.contract, a.artifact, f, WireOptions(a.options));
             var y := Basis(b.task, b.binding, b.contract, b.artifact, g, WireOptions(b.options));
      digester(x) == digester(y) ==> x == y
    ensures DigestOf(digester, a) == DigestOf(digester, b) <==>
      && a.task == b.task && a.binding == b.binding && a.contract == b.contract && a.artifact == b.artifact
      && FrameToWire(a.frame) == FrameToWire(b.frame) && a.options == b.options
  {
    hide FrameToWire, HorizonOk, WireIdentifier, IdentityOk, SelectorOk;
    OptionsReturn(a.options);
    OptionsReturn(b.options);
  }

  /** The digest looks only at the wire, so the normal form has the same one. */
  lemma DigestIsStable(digester: Digester, r: Request)
    requires FrameToWire(Normal(r.frame)) == FrameToWire(r.frame)
    ensures DigestOf(digester, NormalRequest(r)) == DigestOf(digester, r)
  {
    hide FrameToWire, Normal, HorizonOk;
    HorizonUnchanged(r.frame, r.options);
  }

  lemma DecodedIsNormal(digester: Digester, r: Request, w: RequestWire)
    requires ValidRequest(r) && RequestToWire(digester, r) == Some(w) && RequestFromWire(digester, w).Some?
    ensures RequestFromWire(digester, w) == Some(NormalRequest(r))
      && FrameToWire(Normal(r.frame)) == FrameToWire(r.frame)
  {
    hide ValidFrame, FrameToWire, FrameFromWire, Normal, HorizonOk, WireIdentifier, IdentityOk, SelectorOk,
         CloudLink.DigestText, OptionsDecodable, ValidOptions;
    FrameRoundTrip(r.frame, w.frame);
    OptionsReturn(r.options);
  }

  /** Whenever encoding succeeds: the wire value is the direct conversion; decoding it gives the request with series and
      static features sorted by name and numeric constraints erased; that request has the same digest; and encoding it
      gives the same wire value again. */
  lemma RequestRoundTrip(digester: Digester, r: Request, w: RequestWire)
    requires ValidRequest(r) && Encode(digester, r) == Some(w)
    ensures RequestToWire(digester, r) == Some(w)
    ensures Decode(digester, w) == Some(NormalRequest(r))
    ensures DigestOf(digester, NormalRequest(r)) == DigestOf(digester, r) == Some(r.digest)
    ensures Encode(digester, NormalRequest(r)) == Some(w)
  {
    hide ValidRequest, RequestFromWire, FrameToWire, DigestOf, Normal, RequestUuid, CloudLink.DigestText;
    var wire := RequestToWire(digester, r).value;
    DecodedIsNormal(digester, r, wire);
    DigestIsStable(digester, r);
  }
}

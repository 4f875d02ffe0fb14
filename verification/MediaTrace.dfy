/** What the media components do and what they are told, as one trace, and what makes such a trace a good stream. */
module MediaTrace {
  import opened Common
  import Feedback

  type Generation = NonZeroU64

  datatype Dependency = KeyFrame | Delta

  datatype AccessUnit = AccessUnit(generation: Generation, dependency: Dependency, data: seq<byte>)

  /** What became of an access unit that reached the video sender actor. */
  datatype Fate =
    | Foreign   // tagged with another generation
    | Gated     // withheld by the actor
    | Refused   // handed over, and refused as congested
    | Accepted  // handed over, and accepted
    | Errored   // its forwarding failed

  /** What the transport reports. */
  datatype TransportFeedback = TransportFeedback(
    keyFrameRequests: u64,
    acknowledgedFrames: u64,
    acknowledgedAudioPackets: u64,
    pressure: Option<Feedback.Pressure>,
    terminal: bool)

  datatype Effect =
    | Negotiated(sender: nat)
    | Configured(generation: Generation, sender: nat)
    | Forwarded(accessUnit: AccessUnit, fate: Fate)
    | ReportSeen(report: TransportFeedback)  // one that did not end the generation
    | Requested
    | Forced(generation: Generation)
    | Adjusted(generation: Generation, action: Feedback.Action)
    | ShutDown(sender: nat)
    | Stopped(generation: Generation)

  type Trace = seq<Effect>

  predicate IsKey(e: Effect) { e.Forwarded? && e.fate.Accepted? && e.accessUnit.dependency.KeyFrame? }

  predicate IsDelta(e: Effect) { e.Forwarded? && e.fate.Accepted? && e.accessUnit.dependency.Delta? }

  predicate IsAccepted(e: Effect) { e.Forwarded? && e.fate.Accepted? }

  predicate IsDropped(e: Effect) { e.Forwarded? && (e.fate.Foreign? || e.fate.Gated? || e.fate.Refused?) }

  predicate IsOwn(e: Effect) { e.Forwarded? && !e.fate.Foreign? }

  predicate Handed(e: Effect) { e.Forwarded? && (e.fate.Refused? || e.fate.Accepted? || e.fate.Errored?) }

  // ----- Decodability -----

  /** Where a decoder can start: a key frame, or the beginning of a generation. */
  predicate Anchor(e: Effect) { e.Configured? || IsKey(e) }

  /** Nothing the decoder needs is lost here. */
  predicate Continues(e: Effect) { !e.Configured? && (e.Forwarded? ==> e.fate.Foreign? || e.fate.Accepted?) }

  ghost predicate Chained(t: Trace, j: nat, k: nat) {
    j < k <= |t| && Anchor(t[j]) && forall i :: j < i < k ==> Continues(t[i])
  }

  /** Every accepted delta frame follows an unbroken run of accepted frames back to a place where decoding can start. */
  ghost predicate Decodable(t: Trace) {
    forall k :: 0 <= k < |t| && IsDelta(t[k]) ==> exists j: nat :: Chained(t, j, k)
  }

  /** The run of accepted frames that ends here has been interrupted. */
  ghost predicate Broken(t: Trace) {
    if t == [] then true
    else
      var e := t[|t| - 1];
      if Anchor(e) then false else if Continues(e) then Broken(t[..|t| - 1]) else true
  }

  lemma {:induction false} IntactChain(t: Trace)
    requires !Broken(t)
    ensures exists j: nat :: Chained(t, j, |t|)
  {
    var n := |t| - 1;
    if Anchor(t[n]) {
      assert Chained(t, n, |t|);
    } else {
      IntactChain(t[..n]);
      var j: nat :| Chained(t[..n], j, n);
      assert Chained(t, j, |t|);
    }
  }

  lemma DecodableAppend(t: Trace, e: Effect)
    requires Decodable(t) && (IsDelta(e) ==> !Broken(t))
    ensures Decodable(t + [e])
  {
    var u := t + [e];
    forall k | 0 <= k < |u| && IsDelta(u[k]) ensures exists j: nat :: Chained(u, j, k) {
      if k < |t| {
        var j: nat :| Chained(t, j, k);
        assert Chained(u, j, k);
      } else {
        IntactChain(t);
        var j: nat :| Chained(t, j, |t|);
        assert Chained(u, j, k);
      }
    }
  }

  // ----- Counting within a generation -----

  /** How many effects since the last configuration satisfy `p`. */
  ghost function Since(t: Trace, p: Effect -> bool): nat {
    if t == [] then 0
    else
      var e := t[|t| - 1];
      if e.Configured? then 0 else Since(t[..|t| - 1], p) + if p(e) then 1 else 0
  }

  lemma SinceAppend(t: Trace, e: Effect, p: Effect -> bool)
    ensures Since(t + [e], p) == if e.Configured? then 0 else Since(t, p) + if p(e) then 1 else 0
  {
    assert (t + [e])[..|t|] == t;
  }

  ghost predicate RequestedSinceKey(t: Trace) {
    if t == [] then false
    else
      var e := t[|t| - 1];
      if e.Requested? then true else if Anchor(e) then false else RequestedSinceKey(t[..|t| - 1])
  }

  lemma LastAppend(t: Trace, e: Effect)
    ensures Broken(t + [e]) == if Anchor(e) then false else if Continues(e) then Broken(t) else true
    ensures RequestedSinceKey(t + [e]) == if e.Requested? then true else if Anchor(e) then false
              else RequestedSinceKey(t)
  {
    assert (t + [e])[..|t|] == t;
  }

  /** The request is there to be seen, and no key frame has been accepted since. */
  lemma {:induction false} RequestVisible(t: Trace)
    requires RequestedSinceKey(t)
    ensures exists j :: 0 <= j < |t| && t[j].Requested? && forall i :: j < i < |t| ==> !Anchor(t[i])
  {
    var n := |t| - 1;
    if t[n].Requested? {
    } else {
      RequestVisible(t[..n]);
      var j :| 0 <= j < n && t[..n][j].Requested? && forall i :: j < i < n ==> !Anchor(t[..n][i]);
      assert t[j].Requested? && forall i :: j < i < |t| ==> !Anchor(t[i]);
    }
  }

  // ----- The frame check of the encoder (section 9.1 of RFC 6386) -----

  const MAX_ENCODED_ACCESS_UNIT_BYTES := 8 * 1024 * 1024

  datatype FrameError = TooShort | TooLong | WrongDependency | FirstNotKeyFrame | NoStartCode

  /** `vp8::validate_frame`. */
  function ValidateFrame(bytes: seq<byte>, dependency: Dependency, first: bool): (r: Result<Unit, FrameError>) {
    if |bytes| < 3 then Err(TooShort)
    else if |bytes| > MAX_ENCODED_ACCESS_UNIT_BYTES then Err(TooLong)
    else if dependency != (if bytes[0] % 2 == 0 then KeyFrame else Delta) then Err(WrongDependency)
    else if first && !dependency.KeyFrame? then Err(FirstNotKeyFrame)
    else if dependency.KeyFrame? && (|bytes| < 10 || bytes[3..6] != [0x9d, 0x01, 0x2a]) then Err(NoStartCode)
    else Ok(Unit)
  }

  /** Position `k` holds the first access unit of the generation configured at `c`. */
  ghost predicate FirstOwn(t: Trace, c: nat, k: nat) {
    c < k < |t| && t[c].Configured? && IsOwn(t[k]) && forall i :: c < i < k ==> !t[i].Configured? && !IsOwn(t[i])
  }

  /** The encoder checked every access unit, and the first of a generation as a first frame. */
  ghost predicate Validated(t: Trace) {
    && (forall i :: 0 <= i < |t| && IsOwn(t[i]) ==>
          ValidateFrame(t[i].accessUnit.data, t[i].accessUnit.dependency, false).Ok?)
    && (forall c: nat, k: nat :: FirstOwn(t, c, k) ==>
          ValidateFrame(t[k].accessUnit.data, t[k].accessUnit.dependency, true).Ok?)
  }

  /** Position `k` holds the first frame the transport accepted in the generation configured at `c`. */
  ghost predicate FirstAccepted(t: Trace, c: nat, k: nat) {
    && c < k < |t| && t[c].Configured? && IsAccepted(t[k])
    && forall i :: c < i < k ==> !t[i].Configured? && !IsAccepted(t[i])
  }

  /** The first frame the transport accepts in a generation is a key frame, marked as such in its frame tag. */
  lemma StartsWithKeyFrame(t: Trace, c: nat, k: nat)
    requires Decodable(t) && Validated(t) && FirstAccepted(t, c, k)
    ensures t[k].accessUnit.dependency.KeyFrame? && |t[k].accessUnit.data| >= 10
    ensures t[k].accessUnit.data[0] % 2 == 0 && t[k].accessUnit.data[3..6] == [0x9d, 0x01, 0x2a]
  {
    if IsDelta(t[k]) {
      var j: nat :| Chained(t, j, k);
      assert !Continues(t[c]);
      assert j == c;
      assert FirstOwn(t, c, k);
    }
  }
}

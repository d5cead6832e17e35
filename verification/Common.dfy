/** Shared vocabulary: optional values, results, machine integers, and the "collect" pattern of the
    loops that push a value for some of the elements they visit. */
module Common {

  datatype Option<+T> = None | Some(value: T)

  /** The errors a call reports, one for each error text of the service; WriteFailed stands for the
      text of the database and NotSent for that of a socket. */
  datatype Error =
    | InvalidArgument | UserNotLogged
    | UserNotFound | NoIdField | NoEmailField | NoExpDateField | NoStatusField | UserNotActive | UserRemoved
    | NoPasswordField | InvalidPassword | ExpiredAccount | CreateDevice | DeviceBanned | LimitConnection
    | DeviceNotFound
    | InvalidUserId | InvalidStreamId | StreamNotFound | InvalidStream | StreamTypeNotSupported | CantParseUrls
    | InvalidRequest | InvalidChannelId | NotSent
    | NotPrepared | ServerNotFound | WriteFailed

  datatype Result<+T> = Ok(value: T) | Err(error: Error)

  type int32 = x: int | -0x8000_0000 <= x < 0x8000_0000

  const UINT64: int := 0x1_0000_0000_0000_0000

  /** Conversion of a signed number to `uint64_t` / `size_t`. */
  function ToUint64(x: int): nat {
    x % UINT64
  }

  /** Conversion of a wider number to `int`. */
  function ToInt32(x: int): int32 {
    (x + 0x8000_0000) % 0x1_0000_0000 - 0x8000_0000
  }

  /** Division of C: truncates toward zero. */
  function Truncated(a: int, b: int): int
    requires b > 0
  {
    if a >= 0 then a / b else -((-a) / b)
  }

  /** The values `f` yields for the elements of `xs`, in order; elements yielding `None` are skipped. */
  function Collect<A, B>(f: A -> Option<B>, xs: seq<A>): seq<B> {
    if xs == [] then []
    else
      var init := Collect(f, xs[..|xs| - 1]);
      match f(xs[|xs| - 1])
      case None => init
      case Some(y) => init + [y]
  }

  lemma CollectStep<A, B>(f: A -> Option<B>, xs: seq<A>, i: nat)
    requires i < |xs|
    ensures Collect(f, xs[..i + 1]) == match f(xs[i]) case None => Collect(f, xs[..i])
                                                       case Some(y) => Collect(f, xs[..i]) + [y]
  {
    assert xs[..i + 1][..i] == xs[..i];
  }

  /** Where the collected values come from: `at` holds, in order, exactly the positions at which `f` yields a
      value, and the k-th value is the one from the k-th of them. */
  ghost predicate CollectedAt<A, B>(f: A -> Option<B>, xs: seq<A>, at: seq<nat>) {
    && |at| == |Collect(f, xs)|
    && (forall k :: 0 <= k < |at| ==> at[k] < |xs| && f(xs[at[k]]) == Some(Collect(f, xs)[k]))
    && (forall k, l :: 0 <= k < l < |at| ==> at[k] < at[l])
    && (forall i :: 0 <= i < |xs| && f(xs[i]).Some? ==> i in at)
  }

  lemma PositionSkipped<A, B>(f: A -> Option<B>, init: seq<A>, x: A, at: seq<nat>)
    requires CollectedAt(f, init, at) && f(x) == None && Collect(f, init + [x]) == Collect(f, init)
    ensures CollectedAt(f, init + [x], at)
  {
    var xs := init + [x];
    forall i | 0 <= i < |xs| && f(xs[i]).Some? ensures i in at {
      assert i < |init| && xs[i] == init[i];
    }
  }

  lemma PositionAdded<A, B>(f: A -> Option<B>, init: seq<A>, x: A, at: seq<nat>)
    requires CollectedAt(f, init, at) && f(x).Some? && Collect(f, init + [x]) == Collect(f, init) + [f(x).value]
    ensures CollectedAt(f, init + [x], at + [|init|])
  {
    var xs := init + [x];
    forall i | 0 <= i < |xs| && f(xs[i]).Some? ensures i in at + [|init|] {
      assert i < |init| ==> xs[i] == init[i] && i in at;
    }
  }

  lemma {:induction false} CollectPositions<A, B>(f: A -> Option<B>, xs: seq<A>) returns (at: seq<nat>)
    ensures CollectedAt(f, xs, at)
  {
    if xs == [] {
      at := [];
    } else {
      var n := |xs| - 1;
      at := CollectPositions(f, xs[..n]);
      assert xs == xs[..n] + [xs[n]];
      if f(xs[n]).Some? {
        PositionAdded(f, xs[..n], xs[n], at);
        at := at + [n];
      } else {
        PositionSkipped(f, xs[..n], xs[n], at);
      }
    }
  }

  lemma {:induction false} CollectConcat<A, B>(f: A -> Option<B>, xs: seq<A>, ys: seq<A>)
    ensures Collect(f, xs + ys) == Collect(f, xs) + Collect(f, ys)
  {
    if ys == [] {
      assert xs + ys == xs;
    } else {
      var n := |ys| - 1;
      CollectConcat(f, xs, ys[..n]);
      assert (xs + ys)[..|xs| + n] == xs + ys[..n];
    }
  }
}

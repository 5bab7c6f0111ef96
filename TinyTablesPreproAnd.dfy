/**
 * The preprocessing phase of the TinyTables AND gate, for two players.
 *
 * Each player holds XOR shares of the masks of the gate's input wires U
 * (left) and V (right) and picks a share of the output wire's mask. The
 * players end up with 2x2 tables whose (c, d) entries XOR to
 * (rU xor c) and (rV xor d) xor rO. The mixed products of the two players'
 * shares are obtained with two oblivious transfers per gate, which are
 * deferred and run in one batch by `FinishPreprocessing`.
 *
 * Randomness is passed in as explicit bits, the player id as a parameter,
 * and the per-player storage is an object holding four maps keyed by gate id.
 */
module TinyTablesPrepro {
  import opened Wrappers
  import opened Framework
  import opened OT
  import opened OTExtension

  function Xor(a: bool, b: bool): bool
  {
    a != b
  }

  function Bit(b: bool): nat
  {
    if b then 1 else 0
  }

  /** One player's half of a gate's table; entry k = 2c + d is the (c, d) entry. */
  datatype TinyTable = TinyTable(e0: bool, e1: bool, e2: bool, e3: bool)
  {
    function Entry(k: nat): bool
      requires k < 4
    {
      if k == 0 then e0 else if k == 1 then e1 else if k == 2 then e2 else e3
    }

    /** The (c, d) entry, which is entry 2c + d. */
    function Get(c: bool, d: bool): (e: bool)
      ensures e == Entry(2 * Bit(c) + Bit(d))
    {
      if c then (if d then e3 else e2) else (if d then e1 else e0)
    }
  }

  /**
   * Entries 1, 2 and 3 are entry 0 flipped by the owner's left share, by its
   * right share, and by both (and additionally by `flip`).
   */
  predicate FlipShaped(t: TinyTable, left: bool, right: bool, flip: bool)
  {
    && t.e1 == Xor(t.e0, left)
    && t.e2 == Xor(t.e0, right)
    && t.e3 == Xor(Xor(Xor(t.e0, left), right), flip)
  }

  /**
   * `calculateOTInputs`: player 1's two OT input pairs, (x0, x0 xor left)
   * and (x1, x1 xor right). Whoever selects with bit s learns the mask bit
   * xor (s and share), a share of the mixed product.
   */
  function CalculateOTInputs(x0: bool, x1: bool, leftShare: bool, rightShare: bool): (inputs: seq<OTInput>)
    ensures |inputs| == 2
    ensures forall s :: Select(inputs[0], s) == Xor(x0, s && leftShare)
    ensures forall s :: Select(inputs[1], s) == Xor(x1, s && rightShare)
  {
    [OTInput(x0, Xor(x0, leftShare)), OTInput(x1, Xor(x1, rightShare))]
  }

  /** Player 1's table in round 0, from its own shares and the two OT masks. */
  function Player1Table(leftShare: bool, rightShare: bool, rO: bool, x0: bool, x1: bool): (t: TinyTable)
    ensures FlipShaped(t, leftShare, rightShare, false)
  {
    var e0 := Xor(Xor(Xor(rightShare && leftShare, rO), x0), x1);
    TinyTable(e0, Xor(e0, leftShare), Xor(e0, rightShare), Xor(Xor(e0, leftShare), rightShare))
  }

  /**
   * Player 2's selection bits for the gate's two OTs: its right share, then
   * its left share. Against player 1's OT inputs they yield the mask bits
   * xor the two cross products of the players' shares.
   */
  function Player2Sigmas(leftShare: bool, rightShare: bool): (sigmas: seq<OTSigma>)
    ensures |sigmas| == 2
    ensures forall x0, x1, u1, v1 ::
      && Select(CalculateOTInputs(x0, x1, u1, v1)[0], sigmas[0].sigma) == Xor(x0, u1 && rightShare)
      && Select(CalculateOTInputs(x0, x1, u1, v1)[1], sigmas[1].sigma) == Xor(x1, v1 && leftShare)
  {
    [OTSigma(rightShare), OTSigma(leftShare)]
  }

  /** `calculateTinyTable`: player 2's table from the two OT outputs and its own shares. */
  function CalculateTinyTable(y0: bool, y1: bool, rU: bool, rV: bool, rO: bool): (t: TinyTable)
    ensures FlipShaped(t, rU, rV, true)
  {
    var s0 := Xor(Xor(Xor(y0, y1), rU && rV), rO);
    TinyTable(s0, Xor(s0, rU), Xor(s0, rV), Xor(Xor(Xor(s0, rU), rV), true))
  }

  /**
   * The correctness of one gate. Player 1 holds shares (u1, v1, o1) and OT
   * masks (x0, x1), player 2 holds (u2, v2, o2). The OTs are ideal: y0 and y1
   * are what player 2 obtains selecting with the sigmas it stores, and it
   * reads those sigmas back as rV = sigmas[0] and rU = sigmas[1]. Then the
   * (c, d) entries of the two tables XOR to (rU xor c) and (rV xor d) xor rO
   * for the combined masks rU = u1 xor u2, rV = v1 xor v2, rO = o1 xor o2.
   */
  lemma TableSharesCorrect(u1: bool, v1: bool, o1: bool, x0: bool, x1: bool,
                           u2: bool, v2: bool, o2: bool, y0: bool, y1: bool, c: bool, d: bool)
    requires y0 == Select(CalculateOTInputs(x0, x1, u1, v1)[0], Player2Sigmas(u2, v2)[0].sigma)
    requires y1 == Select(CalculateOTInputs(x0, x1, u1, v1)[1], Player2Sigmas(u2, v2)[1].sigma)
    ensures Xor(Player1Table(u1, v1, o1, x0, x1).Get(c, d),
                CalculateTinyTable(y0, y1, Player2Sigmas(u2, v2)[1].sigma, Player2Sigmas(u2, v2)[0].sigma, o2).Get(c, d))
         == Xor(Xor(Xor(u1, u2), c) && Xor(Xor(v1, v2), d), Xor(o1, o2))
  {
  }

  /** A wire value of the preprocessing phase: this player's share of the wire's mask. */
  class PreproSBool {
    var share: bool

    constructor (share: bool)
      ensures this.share == share
    {
      this.share := share;
    }
  }

  /** One player's preprocessed data, keyed by gate id. */
  class TinyTablesStorage {
    var otInputs: map<int, seq<OTInput>>
    var otSigmas: map<int, seq<OTSigma>>
    var maskShares: map<int, bool>
    var tinyTables: map<int, TinyTable>

    constructor ()
      ensures otInputs == map[] && otSigmas == map[] && maskShares == map[] && tinyTables == map[]
    {
      otInputs, otSigmas, maskShares, tinyTables := map[], map[], map[], map[];
    }

    method StoreOTInput(id: int, inputs: seq<OTInput>)
      modifies this
      ensures otInputs == old(otInputs)[id := inputs]
      ensures otSigmas == old(otSigmas) && maskShares == old(maskShares) && tinyTables == old(tinyTables)
    {
      otInputs := otInputs[id := inputs];
    }

    method StoreOTSigma(id: int, sigmas: seq<OTSigma>)
      modifies this
      ensures otSigmas == old(otSigmas)[id := sigmas]
      ensures otInputs == old(otInputs) && maskShares == old(maskShares) && tinyTables == old(tinyTables)
    {
      otSigmas := otSigmas[id := sigmas];
    }

    method StoreMaskShare(id: int, share: bool)
      modifies this
      ensures maskShares == old(maskShares)[id := share]
      ensures otInputs == old(otInputs) && otSigmas == old(otSigmas) && tinyTables == old(tinyTables)
    {
      maskShares := maskShares[id := share];
    }

    method StoreTinyTable(id: int, table: TinyTable)
      modifies this
      ensures tinyTables == old(tinyTables)[id := table]
      ensures otInputs == old(otInputs) && otSigmas == old(otSigmas) && maskShares == old(maskShares)
    {
      tinyTables := tinyTables[id := table];
    }
  }

  class TinyTablesPreproANDProtocol {
    const id: int
    const inLeft: PreproSBool
    const inRight: PreproSBool
    const out: PreproSBool

    constructor (id: int, inLeft: PreproSBool, inRight: PreproSBool, out: PreproSBool)
      ensures this.id == id && this.inLeft == inLeft && this.inRight == inRight && this.out == out
    {
      this.id := id;
      this.inLeft := inLeft;
      this.inRight := inRight;
      this.out := out;
    }

    /** The declared inputs: the left and then the right input wire. */
    function InputValues(): (values: seq<PreproSBool>)
      ensures |values| == 2 && values[0] == inLeft && values[1] == inRight
    {
      [inLeft, inRight]
    }

    /** The declared output: the output wire alone. */
    function OutputValues(): (values: seq<PreproSBool>)
      ensures |values| == 1 && values[0] == out
    {
      [out]
    }

    /**
     * `evaluate`: only round 0 exists. Player 1 (`myId == 1`) draws rO, x0 and
     * x1, sets the output share, and stores its OT inputs and its table;
     * every other player draws rO, and stores its sigmas and its mask share.
     * Player 1 sets the output share before it reads the input shares, so its
     * stored values are stated over the shares as they are afterwards.
     */
    method Evaluate(round: int, myId: int, rO: bool, x0: bool, x1: bool, storage: TinyTablesStorage)
      returns (r: Result<EvaluationStatus, ProtocolError>)
      modifies out, storage
      ensures round != 0 ==> r == Failure(MPCException("Cannot evaluate more than one round"))
      ensures round != 0 ==> out.share == old(out.share)
      ensures round != 0 ==> storage.otInputs == old(storage.otInputs) && storage.otSigmas == old(storage.otSigmas)
      ensures round != 0 ==> storage.maskShares == old(storage.maskShares) && storage.tinyTables == old(storage.tinyTables)
      ensures round == 0 ==> r == Success(IsDone) && out.share == rO
      ensures round == 0 && myId == 1 ==>
        && storage.otInputs == old(storage.otInputs)[id := CalculateOTInputs(x0, x1, inLeft.share, inRight.share)]
        && storage.tinyTables == old(storage.tinyTables)[id := Player1Table(inLeft.share, inRight.share, rO, x0, x1)]
        && storage.otSigmas == old(storage.otSigmas) && storage.maskShares == old(storage.maskShares)
      ensures round == 0 && myId != 1 ==>
        && storage.otSigmas == old(storage.otSigmas)[id := Player2Sigmas(old(inLeft.share), old(inRight.share))]
        && storage.maskShares == old(storage.maskShares)[id := rO]
        && storage.otInputs == old(storage.otInputs) && storage.tinyTables == old(storage.tinyTables)
    {
      if round != 0 {
        return Failure(MPCException("Cannot evaluate more than one round"));
      }
      if myId == 1 {
        out.share := rO;
        var otInputs := CalculateOTInputs(x0, x1, inLeft.share, inRight.share);
        storage.StoreOTInput(id, otInputs);
        var tinyTable := Player1Table(inLeft.share, inRight.share, rO, x0, x1);
        storage.StoreTinyTable(id, tinyTable);
      } else {
        var sigmas := Player2Sigmas(inLeft.share, inRight.share);
        storage.StoreOTSigma(id, sigmas);
        out.share := rO;
        storage.StoreMaskShare(id, rO);
      }
      r := Success(IsDone);
    }
  }

  ghost predicate NoDuplicates(ids: seq<int>)
  {
    forall i, j :: 0 <= i < j < |ids| ==> ids[i] != ids[j]
  }

  /** `ids` is an iteration order of the key set of `keys`: every key exactly once. */
  ghost predicate Enumerates<V>(ids: seq<int>, keys: map<int, V>)
  {
    && NoDuplicates(ids)
    && (forall i :: 0 <= i < |ids| ==> ids[i] in keys)
    && (forall id :: id in keys ==> id in ids)
  }

  /** `Util.getAll`: the values of a storage map, concatenated in iteration order. */
  function Gather<T>(ids: seq<int>, m: map<int, seq<T>>): (all: seq<T>)
    requires forall i :: 0 <= i < |ids| ==> ids[i] in m
    ensures (forall i :: 0 <= i < |ids| ==> |m[ids[i]]| == 2) ==> |all| == 2 * |ids|
    decreases |ids|
  {
    if ids == [] then [] else Gather(ids[..|ids| - 1], m) + m[ids[|ids| - 1]]
  }

  /**
   * Player 2's storage is ready for the batch step: `ids` enumerates the gates
   * that have sigmas, and each has two sigmas and a mask share.
   */
  ghost predicate Player2Ready(ids: seq<int>, sigmas: map<int, seq<OTSigma>>, masks: map<int, bool>)
  {
    && Enumerates(ids, sigmas)
    && (forall i :: 0 <= i < |ids| ==> |sigmas[ids[i]]| == 2 && ids[i] in masks)
  }

  /**
   * The tables `player2CalculateTinyTables` computes for the gates `ids`, the
   * k-th gate in iteration order consuming OT outputs 2k and 2k + 1.
   */
  function Player2Tables(ids: seq<int>, sigmas: map<int, seq<OTSigma>>, masks: map<int, bool>,
                         outputs: seq<bool>): (tables: map<int, TinyTable>)
    requires forall i :: 0 <= i < |ids| ==> ids[i] in sigmas && |sigmas[ids[i]]| == 2 && ids[i] in masks
    requires |outputs| >= 2 * |ids|
    ensures forall i :: 0 <= i < |ids| ==> ids[i] in tables
    decreases |ids|
  {
    if ids == [] then map[]
    else
      var n := |ids| - 1;
      var id := ids[n];
      Player2Tables(ids[..n], sigmas, masks, outputs)[id :=
        CalculateTinyTable(outputs[2 * n], outputs[2 * n + 1], sigmas[id][1].sigma, sigmas[id][0].sigma, masks[id])]
  }

  /** Exactly the gates in `ids` get a table. */
  lemma {:induction false} Player2TablesKeys(ids: seq<int>, sigmas: map<int, seq<OTSigma>>, masks: map<int, bool>,
                                            outputs: seq<bool>)
    requires forall i :: 0 <= i < |ids| ==> ids[i] in sigmas && |sigmas[ids[i]]| == 2 && ids[i] in masks
    requires |outputs| >= 2 * |ids|
    ensures Player2Tables(ids, sigmas, masks, outputs).Keys == set i | 0 <= i < |ids| :: ids[i]
    decreases |ids|
  {
    if ids != [] {
      var n := |ids| - 1;
      Player2TablesKeys(ids[..n], sigmas, masks, outputs);
      assert ids == ids[..n] + [ids[n]];
    }
  }

  /** The table of the k-th gate is computed from OT outputs 2k and 2k + 1 and that gate's own data. */
  lemma {:induction false} Player2TablesAt(ids: seq<int>, sigmas: map<int, seq<OTSigma>>, masks: map<int, bool>,
                                          outputs: seq<bool>, k: nat)
    requires NoDuplicates(ids) && k < |ids|
    requires forall i :: 0 <= i < |ids| ==> ids[i] in sigmas && |sigmas[ids[i]]| == 2 && ids[i] in masks
    requires |outputs| >= 2 * |ids|
    ensures ids[k] in Player2Tables(ids, sigmas, masks, outputs)
    ensures Player2Tables(ids, sigmas, masks, outputs)[ids[k]]
         == CalculateTinyTable(outputs[2 * k], outputs[2 * k + 1], sigmas[ids[k]][1].sigma,
                               sigmas[ids[k]][0].sigma, masks[ids[k]])
    decreases |ids|
  {
    var n := |ids| - 1;
    if k < n {
      Player2TablesAt(ids[..n], sigmas, masks, outputs, k);
      assert ids[..n][k] == ids[k];
    }
  }

  /** Entries 2k and 2k + 1 of the gathered values are the two values stored for the k-th id. */
  lemma {:induction false} GatherAt<T>(ids: seq<int>, m: map<int, seq<T>>, k: nat)
    requires forall i :: 0 <= i < |ids| ==> ids[i] in m && |m[ids[i]]| == 2
    requires k < |ids|
    ensures |Gather(ids, m)| == 2 * |ids|
    ensures Gather(ids, m)[2 * k] == m[ids[k]][0] && Gather(ids, m)[2 * k + 1] == m[ids[k]][1]
    decreases |ids|
  {
    var n := |ids| - 1;
    if k < n {
      GatherAt(ids[..n], m, k);
      assert ids[..n][k] == ids[k];
    }
  }

  /** Extending the prefix by the k-th gate adds that gate's table. */
  lemma Player2TablesStep(ids: seq<int>, sigmas: map<int, seq<OTSigma>>, masks: map<int, bool>,
                          outputs: seq<bool>, k: nat)
    requires k < |ids|
    requires forall i :: 0 <= i < |ids| ==> ids[i] in sigmas && |sigmas[ids[i]]| == 2 && ids[i] in masks
    requires |outputs| >= 2 * |ids|
    ensures Player2Tables(ids[..k + 1], sigmas, masks, outputs)
         == Player2Tables(ids[..k], sigmas, masks, outputs)[ids[k] :=
              CalculateTinyTable(outputs[2 * k], outputs[2 * k + 1], sigmas[ids[k]][1].sigma,
                                 sigmas[ids[k]][0].sigma, masks[ids[k]])]
  {
    assert ids[..k + 1][..k] == ids[..k];
  }

  lemma UpdateUnion<K, V>(a: map<K, V>, b: map<K, V>, key: K, value: V)
    ensures (a + b)[key := value] == a + b[key := value]
  {
  }

  /**
   * `player2CalculateTinyTables`: walks the gates that have sigmas, in
   * iteration order `ids`, and stores one table per gate, the k-th gate
   * taking OT outputs 2k and 2k + 1.
   */
  method Player2CalculateTinyTables(otOutputs: seq<bool>, storage: TinyTablesStorage, ids: seq<int>)
    requires Player2Ready(ids, storage.otSigmas, storage.maskShares)
    requires |otOutputs| >= 2 * |ids|
    modifies storage
    ensures storage.otInputs == old(storage.otInputs) && storage.otSigmas == old(storage.otSigmas)
    ensures storage.maskShares == old(storage.maskShares)
    ensures storage.tinyTables
         == old(storage.tinyTables) + Player2Tables(ids, storage.otSigmas, storage.maskShares, otOutputs)
  {
    ghost var sigmas, masks, tables := storage.otSigmas, storage.maskShares, storage.tinyTables;
    var progress := 0;
    for k := 0 to |ids|
      invariant progress == 2 * k
      invariant storage.otInputs == old(storage.otInputs)
      invariant storage.otSigmas == sigmas && storage.maskShares == masks
      invariant storage.tinyTables == tables + Player2Tables(ids[..k], sigmas, masks, otOutputs)
    {
      var id := ids[k];
      var rV := storage.otSigmas[id][0].sigma;
      var rU := storage.otSigmas[id][1].sigma;
      var y0 := otOutputs[progress];
      var y1 := otOutputs[progress + 1];
      var rO := storage.maskShares[id];
      var tinyTable := CalculateTinyTable(y0, y1, rU, rV, rO);
      ghost var done := Player2Tables(ids[..k], sigmas, masks, otOutputs);
      storage.StoreTinyTable(id, tinyTable);
      Player2TablesStep(ids, sigmas, masks, otOutputs, k);
      UpdateUnion(tables, done, id, tinyTable);
      progress := progress + 2;
    }
    assert ids[..|ids|] == ids;
  }

  /**
   * `finishPreprocessing`: player 1 sends all its OT inputs in one batched
   * transfer and leaves its storage as it is; player 2 receives with all its
   * sigmas and computes its tables; any other player does nothing. The same
   * iteration order `ids` serves the gathering and the batch step. The OT
   * receiver is the function `receive`, one output per sigma.
   */
  method FinishPreprocessing(playerId: int, storage: TinyTablesStorage, ids: seq<int>,
                             sender: OTExtensionSender, receive: seq<OTSigma> -> seq<bool>)
    requires playerId == 1 ==> Enumerates(ids, storage.otInputs)
    requires playerId == 2 ==> Player2Ready(ids, storage.otSigmas, storage.maskShares)
    requires playerId == 2 ==> forall sigmas :: |receive(sigmas)| == |sigmas|
    modifies storage, sender
    ensures storage.otInputs == old(storage.otInputs) && storage.otSigmas == old(storage.otSigmas)
    ensures storage.maskShares == old(storage.maskShares)
    ensures playerId == 1 ==>
      sender.launches == old(sender.launches) + LaunchesFor(sender.host, sender.port, Batches(Gather(ids, storage.otInputs)))
    ensures playerId == 2 ==>
      storage.tinyTables == old(storage.tinyTables)
        + Player2Tables(ids, storage.otSigmas, storage.maskShares, receive(Gather(ids, storage.otSigmas)))
    ensures playerId == 2 ==> sender.launches == old(sender.launches)
    ensures playerId != 2 ==> storage.tinyTables == old(storage.tinyTables)
    ensures playerId != 1 && playerId != 2 ==> sender.launches == old(sender.launches)
  {
    if playerId == 1 {
      var inputs := Gather(ids, storage.otInputs);
      sender.Send(inputs);
    } else if playerId == 2 {
      var sigmas := Gather(ids, storage.otSigmas);
      var outputs := receive(sigmas);
      Player2CalculateTinyTables(outputs, storage, ids);
    }
  }

  /** A player's shares of one gate's wire masks. */
  datatype GateShares = GateShares(left: bool, right: bool, out: bool)

  /** The random choices of round 0 for one gate: both players' shares and player 1's OT masks. */
  datatype GateRandomness = GateRandomness(p1: GateShares, p2: GateShares, x0: bool, x1: bool)

  /**
   * What round 0 of `Evaluate` stores for a gate with randomness `r`: player 1's
   * OT inputs and table, player 2's sigmas and mask share.
   */
  predicate RoundZeroStored(r: GateRandomness, inputs1: seq<OTInput>, table1: TinyTable,
                            sigmas2: seq<OTSigma>, mask2: bool)
  {
    && inputs1 == CalculateOTInputs(r.x0, r.x1, r.p1.left, r.p1.right)
    && table1 == Player1Table(r.p1.left, r.p1.right, r.p1.out, r.x0, r.x1)
    && sigmas2 == Player2Sigmas(r.p2.left, r.p2.right)
    && mask2 == r.p2.out
  }

  /** One gate's two tables XOR to the masked AND once player 2 has its OT outputs. */
  lemma GateTablesCorrect(r: GateRandomness, inputs1: seq<OTInput>, t1: TinyTable,
                          sigmas2: seq<OTSigma>, mask2: bool, y0: bool, y1: bool, t2: TinyTable, c: bool, d: bool)
    requires RoundZeroStored(r, inputs1, t1, sigmas2, mask2)
    requires y0 == Select(inputs1[0], sigmas2[0].sigma) && y1 == Select(inputs1[1], sigmas2[1].sigma)
    requires t2 == CalculateTinyTable(y0, y1, sigmas2[1].sigma, sigmas2[0].sigma, mask2)
    ensures Xor(t1.Get(c, d), t2.Get(c, d))
         == Xor(Xor(Xor(r.p1.left, r.p2.left), c) && Xor(Xor(r.p1.right, r.p2.right), d), Xor(r.p1.out, r.p2.out))
  {
    TableSharesCorrect(r.p1.left, r.p1.right, r.p1.out, r.x0, r.x1, r.p2.left, r.p2.right, r.p2.out, y0, y1, c, d);
  }

  /**
   * End to end: both players enumerate the gates in the same order `ids`;
   * player 1's storage (`inputs1`, `tables1`) and player 2's storage
   * (`sigmas2`, `masks2`) hold two OT values per gate, and for the k-th gate
   * they hold what round 0 stores for its randomness `r`. After one ideal
   * batched OT over the gathered values and player 2's batch step, the two
   * tables of that gate XOR to the masked AND table of the combined masks.
   */
  lemma PreprocessingCorrect(ids: seq<int>, inputs1: map<int, seq<OTInput>>, tables1: map<int, TinyTable>,
                             sigmas2: map<int, seq<OTSigma>>, masks2: map<int, bool>,
                             k: nat, r: GateRandomness, c: bool, d: bool)
    requires NoDuplicates(ids) && k < |ids|
    requires forall i :: 0 <= i < |ids| ==>
      && ids[i] in inputs1 && ids[i] in tables1 && ids[i] in sigmas2 && ids[i] in masks2
      && |inputs1[ids[i]]| == 2 && |sigmas2[ids[i]]| == 2
    requires RoundZeroStored(r, inputs1[ids[k]], tables1[ids[k]], sigmas2[ids[k]], masks2[ids[k]])
    ensures
      var outputs := IdealTransfer(Gather(ids, inputs1), Gather(ids, sigmas2));
      var tables2 := Player2Tables(ids, sigmas2, masks2, outputs);
      && ids[k] in tables2
      && Xor(tables1[ids[k]].Get(c, d), tables2[ids[k]].Get(c, d))
         == Xor(Xor(Xor(r.p1.left, r.p2.left), c) && Xor(Xor(r.p1.right, r.p2.right), d), Xor(r.p1.out, r.p2.out))
  {
    var g := ids[k];
    var outputs := IdealTransfer(Gather(ids, inputs1), Gather(ids, sigmas2));
    var tables2 := Player2Tables(ids, sigmas2, masks2, outputs);
    var y0, y1 := outputs[2 * k], outputs[2 * k + 1];
    assert y0 == Select(inputs1[g][0], sigmas2[g][0].sigma) && y1 == Select(inputs1[g][1], sigmas2[g][1].sigma) by {
      GatherAt(ids, inputs1, k);
      GatherAt(ids, sigmas2, k);
    }
    assert g in tables2 && tables2[g] == CalculateTinyTable(y0, y1, sigmas2[g][1].sigma, sigmas2[g][0].sigma, masks2[g]) by {
      Player2TablesAt(ids, sigmas2, masks2, outputs, k);
    }
    GateTablesCorrect(r, inputs1[g], tables1[g], sigmas2[g], masks2[g], y0, y1, tables2[g], c, d);
  }
}

/**
 * Reader construction options. An `Option` is a function value that updates
 * the options struct in place; `ApplyOptions` runs every non-nil option, in
 * order, on a fresh struct, skips nil entries, and returns the decoder
 * options the struct has collected.
 */
module ReaderOptions {

  /** An option forwarded to the external decoder (maxminddb.ReaderOption). */
  datatype DecoderOption = DecoderOption(name: string)

  /** A Go `Option` value: nil, or a function applied to the options struct. */
  datatype Option = NilOption | Func(apply: seq<DecoderOption> -> seq<DecoderOption>)

  /** The options struct the options update. */
  class Options {
    var maxminddbOptions: seq<DecoderOption>

    constructor ()
      ensures maxminddbOptions == []
    {
      maxminddbOptions := [];
    }

    /** Runs one option function on this struct. */
    method Apply(f: seq<DecoderOption> -> seq<DecoderOption>)
      modifies this
      ensures maxminddbOptions == f(old(maxminddbOptions))
    {
      maxminddbOptions := f(maxminddbOptions);
    }
  }

  /** The effect of one entry: a nil entry changes nothing. */
  function Step(current: seq<DecoderOption>, o: Option): seq<DecoderOption> {
    if o.NilOption? then current else o.apply(current)
  }

  /** The decoder options left after running `options` in order on an empty struct. */
  function Applied(options: seq<Option>): seq<DecoderOption>
    decreases |options|
  {
    if options == [] then []
    else Step(Applied(options[..|options| - 1]), options[|options| - 1])
  }

  /** The positions of the entries that are invoked: the non-nil ones, in order. */
  function Invoked(options: seq<Option>): (ks: seq<nat>)
    ensures forall j :: 0 <= j < |ks| ==> ks[j] < |options| && options[ks[j]].Func?
    ensures forall k :: 0 <= k < |options| && options[k].Func? ==> k in ks
    ensures forall j, j' :: 0 <= j < j' < |ks| ==> ks[j] < ks[j']
    decreases |options|
  {
    if options == [] then []
    else
      var n := |options| - 1;
      var prior := Invoked(options[..n]);
      if options[n].Func? then prior + [n] else prior
  }

  /** The entries with the nil ones dropped. */
  function WithoutNils(options: seq<Option>): (r: seq<Option>)
    ensures forall j :: 0 <= j < |r| ==> r[j].Func?
    ensures |r| <= |options|
    decreases |options|
  {
    if options == [] then []
    else
      var n := |options| - 1;
      if options[n].Func? then WithoutNils(options[..n]) + [options[n]] else WithoutNils(options[..n])
  }

  /** Runs the non-nil options on a fresh options struct and returns the decoder options it collected. */
  method ApplyOptions(options: seq<Option>) returns (opts: seq<DecoderOption>, ghost invoked: seq<nat>)
    ensures opts == Applied(options)
    ensures invoked == Invoked(options)
  {
    var o := new Options();
    invoked := [];
    for i := 0 to |options|
      invariant o.maxminddbOptions == Applied(options[..i])
      invariant invoked == Invoked(options[..i])
    {
      assert options[..i + 1][..i] == options[..i];
      if options[i].Func? {
        o.Apply(options[i].apply);
        invoked := invoked + [i];
      }
    }
    assert options[..|options|] == options;
    opts := o.maxminddbOptions;
  }

  /** Nil entries are no-ops: dropping them all leaves the result unchanged. */
  lemma {:induction false} NilOptionsIgnored(options: seq<Option>)
    ensures Applied(WithoutNils(options)) == Applied(options)
    decreases |options|
  {
    if options != [] {
      var n := |options| - 1;
      NilOptionsIgnored(options[..n]);
      if options[n].Func? {
        var w := WithoutNils(options[..n]) + [options[n]];
        assert w[..|w| - 1] == WithoutNils(options[..n]);
      }
    }
  }

  /** The test suite's call: one option and one nil; the option runs, the nil is skipped. */
  lemma ApplyOptionsExample(f: seq<DecoderOption> -> seq<DecoderOption>)
    ensures Applied([Func(f), NilOption]) == f([])
    ensures Invoked([Func(f), NilOption]) == [0]
  {
    var os := [Func(f), NilOption];
    var first := os[..1];
    assert first == [Func(f)] && first[..0] == [];
    assert Applied(first) == f([]);
    assert Invoked(first) == [0];
  }
}

/** The embedding provider between two turns of the event loop: `embed` up to its first
  * await, the synchronous stretch that joins the chain, and the chained run itself. */
module SerializerServices {
  import opened Basics
  import opened Serializer
  import Text

  class LocalOnnxEmbeddingProvider {
    var model: Model
    var arrived: map<Caller, string>
    var refused: set<Caller>
    var chain: seq<Link>
    var inflight: Option<nat>
    const dimensions: nat
    const maxInputChars: nat
    const enabled: bool

    constructor (enabled: bool, dimensions: nat, maxInputChars: nat)
      ensures this.enabled == enabled && this.dimensions == dimensions && this.maxInputChars == maxInputChars
      ensures Snapshot() == START
    {
      this.enabled, this.dimensions, this.maxInputChars := enabled, dimensions, maxInputChars;
      model, arrived, refused, chain, inflight := Loading, map[], {}, [], None;
    }

    function Snapshot(): State reads this { State(model, arrived, refused, chain, inflight) }

    // `embedPassage` and `embedQuery` up to the await on the model.
    method Embed(c: Caller, prefix: string, text: string) returns (accepted: bool)
      requires !Known(Snapshot(), c)
      modifies this`arrived
      ensures accepted == enabled
      ensures Snapshot() ==
                if enabled then Next(old(Snapshot()), Arrive(c, prefix + Clip(text, maxInputChars)), dimensions)
                            else old(Snapshot())
    {
      if !enabled { return false; }
      var trimmed := Text.Trim(text);
      var clipped := if |trimmed| <= maxInputChars then trimmed else trimmed[..maxInputChars];
      arrived := arrived[c := prefix + clipped];
      return true;
    }

    // The model is there: chain a run behind the one in flight, with no await in between.
    method Resume(c: Caller)
      requires model == Ready && c in arrived
      modifies this`arrived, this`chain, this`inflight
      ensures Snapshot() == Join(old(Snapshot()), c)
    {
      var run := Link(c, arrived[c], inflight, Waiting);
      arrived := arrived - {c};
      inflight := Some(|chain|);
      chain := chain + [run];
    }

    method Start(i: nat)
      requires CanStart(Snapshot(), i)
      modifies this`chain
      ensures Snapshot() == Next(old(Snapshot()), Begin(i), dimensions)
    {
      chain := chain[i := chain[i].(status := Running)];
    }

    method Complete(i: nat, outcome: Outcome)
      requires CanFinish(Snapshot(), i)
      modifies this`chain
      ensures Snapshot() == Next(old(Snapshot()), Finish(i, outcome), dimensions)
    {
      if outcome.Threw? || |outcome.vector| != dimensions {
        chain := chain[i := chain[i].(status := Rejected)];
        return;
      }
      chain := chain[i := chain[i].(status := Resolved(outcome.vector))];
    }
  }
}

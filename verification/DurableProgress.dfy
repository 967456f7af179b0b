/** The durable run meets the progress log: what tool admission is asked for when the requests come from
    crashing and competing workers. */
module DurableProgress {
  import opened Prelude
  import opened AgentGraph
  import opened RunDatabase
  import opened DurableRun
  import Theorems = DurableTheorems
  import Progress = RunProgress
  import ProgressTheorems
  import Presentation
  import Grounding

  /** The invocation id on the wire: run id, model calls and index, with colons between them. */
  function WireId(run: string, inv: InvId): string {
    run + ":" + Presentation.Digits(inv.modelCalls) + ":" + Presentation.Digits(inv.index)
  }

  lemma SplitAtColon(a: string, b: string, c: string, d: string)
    requires ':' !in a && ':' !in c && a + ":" + b == c + ":" + d
    ensures a == c && b == d
  {
    var whole, same := a + ":" + b, c + ":" + d;
    assert whole[|a|] == ':' && same[|c|] == ':';
    assert (forall i :: 0 <= i < |a| ==> whole[i] == a[i]) && (forall i :: 0 <= i < |c| ==> same[i] == c[i]);
    assert a == whole[..|a|] && c == same[..|c|];
    assert b == whole[|a| + 1..] && d == same[|c| + 1..];
  }

  /** The wire id determines the invocation. */
  lemma WireIdsDiffer(run: string, a: InvId, b: InvId)
    requires WireId(run, a) == WireId(run, b)
    ensures a == b
  {
    var x, y := Presentation.Digits(a.modelCalls), Presentation.Digits(a.index);
    var u, v := Presentation.Digits(b.modelCalls), Presentation.Digits(b.index);
    Grounding.DigitsAreDigits(a.modelCalls);
    Grounding.DigitsAreDigits(b.modelCalls);
    assert WireId(run, a)[|run| + 1..] == x + ":" + y && WireId(run, b)[|run| + 1..] == u + ":" + v;
    SplitAtColon(x, y, u, v);
    Grounding.DigitsReadBack(a.modelCalls);
    Grounding.DigitsReadBack(b.modelCalls);
    Grounding.DigitsReadBack(a.index);
    Grounding.DigitsReadBack(b.index);
  }

  /** The signature of a tool and its arguments. */
  type Signature = (Name, Arguments) -> Progress.Call

  /** What the endpoint is sent: invocations under their wire ids, with the signature of their call. */
  ghost function Wire(run: string, signature: Signature, sent: seq<Request>): ProgressTheorems.Calls {
    (id, call) => exists k ::
      0 <= k < |sent| && WireId(run, sent[k].inv) == id && signature(sent[k].name, sent[k].args) == call
  }

  /** However workers crash, compete and repeat requests, and whatever else happens to the run's progress:
      admission never refuses a request of the run as an id reused with other arguments. */
  lemma AdmissionNeverRefuses(cfg: Config, actions: seq<Action>, run: string, signature: Signature,
                              progress: seq<Progress.Action>, k: nat)
    requires k < |Exec(cfg, INITIAL, actions).sent|
    requires ProgressTheorems.Only(Wire(run, signature, Exec(cfg, INITIAL, actions).sent), progress)
    ensures var r := Exec(cfg, INITIAL, actions).sent[k];
      !Progress.Refuses(Progress.After(Progress.NEW_RUN, progress), WireId(run, r.inv), signature(r.name, r.args))
  {
    var sent := Exec(cfg, INITIAL, actions).sent;
    var id, call := WireId(run, sent[k].inv), signature(sent[k].name, sent[k].args);
    forall other | Wire(run, signature, sent)(id, other) ensures other == call {
      var l :| 0 <= l < |sent| && WireId(run, sent[l].inv) == id && signature(sent[l].name, sent[l].args) == other;
      WireIdsDiffer(run, sent[l].inv, sent[k].inv);
      Theorems.InvocationFixesCall(cfg, actions, k, l);
    }
    ProgressTheorems.NeverRefused(Wire(run, signature, sent), progress, id, call);
  }
}

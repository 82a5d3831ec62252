/** Prompts and workloads (experimentation/internal/workload/workload.go) and the requests they become. */
module Workloads {
  import opened Router

  datatype Prompt = Prompt(id: string, text: string, sensitive: bool, system: string)

  datatype Workload = Workload(name: string, team: string, namespace: string, defaultSensitive: bool, monthlyBudgetEUR: real,
                               premiumModel: string, allowedModels: seq<string>, minQuality: real,
                               prompts: seq<Prompt>)

  /** A quarter of the length, at least one. A char stands for a byte. */
  function EstTokens(s: string): nat {
    if |s| / 4 < 1 then 1 else |s| / 4
  }

  const EST_OUTPUT_TOKENS: nat := 200

  /** The routing request of one prompt under a scenario and a budget. */
  function RequestFor(w: Workload, p: Prompt, s: Scenario, budgetTotal: real, budgetUsed: real): Request {
    Request(w.namespace, p.sensitive || w.defaultSensitive, w.allowedModels, w.premiumModel, w.minQuality,
            budgetTotal, budgetUsed, s, EstTokens(p.system + p.text), EST_OUTPUT_TOKENS)
  }

  // ---------- the prompts of all workloads, as the nested loops visit them ----------

  datatype Job = Job(w: Workload, p: Prompt)

  function JobsOf(w: Workload, ps: seq<Prompt>): seq<Job> {
    seq(|ps|, i requires 0 <= i < |ps| => Job(w, ps[i]))
  }

  /** Every prompt of every workload, in order. */
  function Jobs(ws: seq<Workload>): seq<Job> {
    if ws == [] then [] else Jobs(ws[..|ws| - 1]) + JobsOf(ws[|ws| - 1], ws[|ws| - 1].prompts)
  }

  lemma {:induction false} JobsPrefix(ws: seq<Workload>, k: nat)
    requires k <= |ws|
    ensures Jobs(ws[..k]) <= Jobs(ws)
    decreases |ws|
  {
    if k < |ws| {
      assert ws[..|ws| - 1][..k] == ws[..k];
      JobsPrefix(ws[..|ws| - 1], k);
    } else {
      assert ws[..k] == ws;
    }
  }
}

/** The store's read-only queries over the sealed records, and what the ledger recomputes from their answers
    (sijill/store.py, sijill/agents.py `task_counts`, sijill/budgets.py `used`). */
module Store {
  import opened Records
  import opened Checks

  /** The seqs are 1, 2, 3, ... without a gap. */
  ghost predicate Sequenced(chain: seq<Record>) {
    forall n | Has(chain, n) :: At(chain, n).pos == n
  }

  predicate Names(ref: Ref, n: int) { ref.Dec? && ref.n == n }

  /** `in_task`: the records of a task, in seq order. */
  function InTask(chain: seq<Record>, t: int): seq<Record> {
    if chain == [] then []
    else
      var rest := InTask(chain[..|chain| - 1], t);
      var r := chain[|chain| - 1];
      if Names(r.task, t) then rest + [r] else rest
  }

  /** `task_ended`: the task has a task_end. */
  ghost predicate TaskEnded(chain: seq<Record>, t: int) {
    exists n :: Has(chain, n) && At(chain, n).body.TaskEnd? && Names(At(chain, n).task, t)
  }

  /** `has_child`: a record of the parent, a tool_result. */
  ghost predicate HasResult(chain: seq<Record>, p: int) {
    exists n :: Has(chain, n) && At(chain, n).body.ToolResult? && Names(At(chain, n).parent, p)
  }

  predicate Cites(r: Record, d: int) {
    r.body.ToolCall? && r.body.approvalSeq.Int? && r.body.approvalSeq.i == d
  }

  /** `approval_used`: a tool_call cites the decision. */
  ghost predicate ApprovalUsed(chain: seq<Record>, d: int) {
    exists n :: Has(chain, n) && Cites(At(chain, n), d)
  }

  // ---- recounts over the records of a task ----

  function Tally(rows: seq<Record>): Counts {
    if rows == [] then ZERO
    else
      var c := Tally(rows[..|rows| - 1]);
      var r := rows[|rows| - 1];
      if r.body.TaskEnd? then c else Tallied(c, r)
  }

  function LastSeq(rows: seq<Record>, start: nat): nat {
    if rows == [] then start
    else if rows[|rows| - 1].body.TaskEnd? then LastSeq(rows[..|rows| - 1], start)
    else rows[|rows| - 1].pos
  }

  function CallsOf(rows: seq<Record>): seq<string> {
    if rows == [] then [] else NextCalls(CallsOf(rows[..|rows| - 1]), rows[|rows| - 1])
  }

  function HostsOf(env: Env, rows: seq<Record>): set<string> {
    if rows == [] then {} else NextHosts(env, HostsOf(env, rows[..|rows| - 1]), rows[|rows| - 1])
  }

  function SpendOf(rows: seq<Record>): int {
    if rows == [] then 0 else NextSpend(SpendOf(rows[..|rows| - 1]), rows[|rows| - 1])
  }

  /** The agent registry folded from the agent_* records (`Registry.apply`). */
  function AgentsOf(chain: seq<Record>): map<string, Agent> {
    if chain == [] then map[] else NextAgents(AgentsOf(chain[..|chain| - 1]), chain[|chain| - 1])
  }

  /** The rule pack hash in force: the newest record's. */
  function RulepackOf(chain: seq<Record>): string {
    if chain == [] then "" else chain[|chain| - 1].rulepack
  }
}

/** Durable state: the run store, the kanban board, and the writes that change
    them. A crash keeps a prefix of a step's writes. */
module RunState {
  import opened Basics
  import opened Values
  import opened Pipelines
  import opened Keys

  /** The board gives every key one id, so an id is its key's text. */
  datatype TaskId = TaskId(key: string)

  datatype RunStatus = PENDING | RUNNING | PAUSED_HUMAN | BLOCKED | SUCCEEDED | FAILED

  datatype NodeRunStatus = NodePending | Dispatched | NodeRunning | NodeSucceeded | Partial | NodeFailed | NodeBlocked

  datatype Run = Run(specId: string, status: RunStatus, context: Data, cursor: int)

  /** The non-key columns of `plugin_run_nodes`. */
  datatype Row = Row(
    task: TaskId,
    status: NodeRunStatus,
    parents: set<string>,
    gate: Option<GoalGatePolicy>,
    outputRef: Option<string>,
    updates: Data)

  datatype CardKind = WorkCard | GateCard | HumanCard

  /** A card's body is its prompt template expanded with a context. */
  datatype Card = Card(
    assignee: string,
    prompt: string,
    promptContext: Data,
    parents: seq<TaskId>,
    retryLimit: nat,
    kind: CardKind)

  type Rows = map<RowKey, Row>

  datatype State = State(runs: map<string, Run>, rows: Rows, cards: map<string, Card>, blocked: set<TaskId>)

  const EMPTY := State(map[], map[], map[], {})

  datatype Write =
    | Insert(runId: string, run: Run)
    | Upsert(key: RowKey, row: Row)
    | Create(text: string, card: Card)
    | Block(task: TaskId)
    | Save(runId: string, run: Run)

  function TaskOf(k: RowKey): TaskId {
    TaskId(KeyText(k))
  }

  /** `create_card` keeps the card an existing key already has; `save_run`
      updates an existing row only. */
  function Apply(s: State, w: Write): State {
    match w
    case Insert(id, run) => s.(runs := s.runs[id := run])
    case Upsert(key, row) => s.(rows := s.rows[key := row])
    case Create(text, card) => if text in s.cards then s else s.(cards := s.cards[text := card])
    case Block(task) => s.(blocked := s.blocked + {task})
    case Save(id, run) => if id in s.runs then s.(runs := s.runs[id := run]) else s
  }

  function ApplyAll(s: State, ws: seq<Write>): State {
    if ws == [] then s else Apply(ApplyAll(s, ws[..|ws| - 1]), ws[|ws| - 1])
  }

  lemma {:induction false} ApplyConcat(s: State, a: seq<Write>, b: seq<Write>)
    ensures ApplyAll(s, a + b) == ApplyAll(ApplyAll(s, a), b)
    decreases |b|
  {
    if b == [] {
      assert a + b == a;
    } else {
      assert (a + b)[..|a + b| - 1] == a + b[..|b| - 1];
      ApplyConcat(s, a, b[..|b| - 1]);
    }
  }

  // ---- What a list of board and row writes amounts to --------------------

  predicate Plain(ws: seq<Write>) {
    forall w | w in ws :: w.Upsert? || w.Create? || w.Block?
  }

  /** The combined effect of such a list: rows to set, cards to add where the
      board has none, tasks to block. */
  datatype Effect = Effect(rows: Rows, cards: map<string, Card>, blocked: set<TaskId>)

  /** The first creation of a key counts, the last row written does. */
  function Extend(e: Effect, w: Write): Effect {
    match w
    case Upsert(key, row) => e.(rows := e.rows[key := row])
    case Create(text, card) => if text in e.cards then e else e.(cards := e.cards[text := card])
    case Block(task) => e.(blocked := e.blocked + {task})
    case _ => e
  }

  function EffectOf(ws: seq<Write>): Effect {
    if ws == [] then Effect(map[], map[], {}) else Extend(EffectOf(ws[..|ws| - 1]), ws[|ws| - 1])
  }

  function Imprint(s: State, e: Effect): State {
    State(s.runs, s.rows + e.rows, e.cards + s.cards, s.blocked + e.blocked)
  }

  lemma ImprintStep(s: State, e: Effect, w: Write)
    requires w.Upsert? || w.Create? || w.Block?
    ensures Apply(Imprint(s, e), w) == Imprint(s, Extend(e, w))
  {
    match w
    case Upsert(key, row) => assert (s.rows + e.rows)[key := row] == s.rows + e.rows[key := row];
    case Block(task) => assert s.blocked + e.blocked + {task} == s.blocked + (e.blocked + {task});
    case Create(text, card) =>
      if text !in e.cards {
        if text in s.cards {
          assert e.cards + s.cards == e.cards[text := card] + s.cards;
        } else {
          assert (e.cards + s.cards)[text := card] == e.cards[text := card] + s.cards;
        }
      }
  }

  lemma {:induction false} PlainEffect(s: State, ws: seq<Write>)
    requires Plain(ws)
    ensures ApplyAll(s, ws) == Imprint(s, EffectOf(ws))
    decreases |ws|
  {
    if ws == [] {
      assert s.rows + map[] == s.rows && map[] + s.cards == s.cards && s.blocked + {} == s.blocked;
    } else {
      PlainEffect(s, ws[..|ws| - 1]);
      assert ws[|ws| - 1] in ws;
      ImprintStep(s, EffectOf(ws[..|ws| - 1]), ws[|ws| - 1]);
    }
  }

  ghost predicate Within(a: Effect, b: Effect) {
    && a.rows.Keys <= b.rows.Keys
    && (forall t | t in a.cards :: t in b.cards && b.cards[t] == a.cards[t])
    && a.blocked <= b.blocked
  }

  lemma {:induction false} PrefixEffect(ws: seq<Write>, j: nat)
    requires j <= |ws|
    ensures Within(EffectOf(ws[..j]), EffectOf(ws))
    decreases |ws|
  {
    if j < |ws| {
      var n := |ws| - 1;
      PrefixEffect(ws[..n], j);
      assert ws[..n][..j] == ws[..j];
    } else {
      assert ws[..j] == ws;
    }
  }

  lemma ImprintWithin(s: State, a: Effect, b: Effect)
    requires Within(a, b)
    ensures Imprint(Imprint(s, a), b) == Imprint(s, b)
  {
    assert s.rows + a.rows + b.rows == s.rows + b.rows;
    assert b.cards + (a.cards + s.cards) == b.cards + s.cards by {
      forall t | t in a.cards && t !in s.cards
        ensures t in b.cards && b.cards[t] == a.cards[t]
      {
      }
    }
  }

  /** Writing a prefix and then the whole list is writing the whole list. */
  lemma PrefixThenAll(s: State, ws: seq<Write>, j: nat)
    requires Plain(ws) && j <= |ws|
    ensures ApplyAll(ApplyAll(s, ws[..j]), ws) == ApplyAll(s, ws)
  {
    assert Plain(ws[..j]);
    PlainEffect(s, ws[..j]);
    PlainEffect(s, ws);
    PlainEffect(ApplyAll(s, ws[..j]), ws);
    PrefixEffect(ws, j);
    ImprintWithin(s, EffectOf(ws[..j]), EffectOf(ws));
  }

  // ---- Queries -----------------------------------------------------------

  ghost predicate TasksUnique(rows: Rows) {
    forall j, k | j in rows && k in rows && rows[j].task == rows[k].task :: j == k
  }

  /** `get_node_by_task`; SQLite may return any matching row. */
  ghost function FindByTask(rows: Rows, task: TaskId): Option<RowKey> {
    if exists k :: k in rows && rows[k].task == task then
      var k :| k in rows && rows[k].task == task;
      Some(k)
    else None
  }

  function AttemptsOf(rows: Rows, run: string, node: string): set<nat> {
    set k | k in rows && k.run == run && k.node == node :: k.attempt
  }

  function Greatest(s: set<nat>): (m: nat)
    ensures forall x | x in s :: x <= m
    ensures s != {} ==> m in s
    decreases |s|
  {
    if s == {} then 0 else MaximumExists(s); var m :| m in s && forall x | x in s :: x <= m; m
  }

  lemma {:induction false} MaximumExists(s: set<nat>)
    requires s != {}
    ensures exists m :: m in s && forall x | x in s :: x <= m
    decreases |s|
  {
    var x :| x in s;
    if s - {x} == {} {
      assert s == {x};
      assert forall y | y in s :: y <= x;
    } else {
      MaximumExists(s - {x});
      var m :| m in s - {x} && forall y | y in s - {x} :: y <= m;
      var top := if x > m then x else m;
      assert top in s && forall y | y in s :: y <= top by {
        assert forall y | y in s :: y == x || y in s - {x};
      }
    }
  }

  /** The key of a node's row of highest attempt; attempt 0 when it has none. */
  function LatestKey(rows: Rows, run: string, node: string): RowKey {
    RowKey(run, node, Greatest(AttemptsOf(rows, run, node)))
  }

  lemma LatestKeyOf(rows: Rows, run: string, node: string)
    ensures LatestKey(rows, run, node).run == run && LatestKey(rows, run, node).node == node
  {
  }

  predicate IsDone(rows: Rows, k: RowKey) {
    k in rows && (rows[k].status == NodeSucceeded || rows[k].status == Partial)
  }

  predicate AllDone(rows: Rows, run: string, nodes: set<string>) {
    forall n | n in nodes :: IsDone(rows, LatestKey(rows, run, n))
  }

  ghost function UpdatesOf(rows: Rows, run: string, nodes: seq<string>): seq<Data> {
    if nodes == [] then [] else
      var k := LatestKey(rows, run, nodes[|nodes| - 1]);
      UpdatesOf(rows, run, nodes[..|nodes| - 1]) + [if k in rows then rows[k].updates else map[]]
  }

  /** `ORDER BY node_id, attempt`. */
  predicate KeyLt(a: RowKey, b: RowKey) {
    StrLt(a.node, b.node) || (a.node == b.node && a.attempt < b.attempt)
  }

  datatype RunNode = RunNode(key: RowKey, row: Row)

  /** `nodes` is what `nodes_for_run` returns. */
  ghost predicate ListsRun(nodes: seq<RunNode>, rows: Rows, run: string) {
    && (forall n | n in nodes :: n.key in rows && n.key.run == run && n.row == rows[n.key])
    && (forall k | k in rows && k.run == run :: RunNode(k, rows[k]) in nodes)
    && (forall i, j | 0 <= i < j < |nodes| :: KeyLt(nodes[i].key, nodes[j].key))
  }

  lemma KeyLtTotal(a: RowKey, b: RowKey, c: RowKey)
    requires a.run == b.run
    ensures KeyLt(a, b) || KeyLt(b, a) || a == b
    ensures !(KeyLt(a, b) && KeyLt(b, a))
    ensures KeyLt(a, b) && KeyLt(b, c) ==> KeyLt(a, c)
  {
    StrLtTotal(a.node, b.node);
    StrLtTotal(b.node, a.node);
    if StrLt(a.node, b.node) && StrLt(b.node, c.node) {
      StrLtTransitive(a.node, b.node, c.node);
    }
  }

  ghost predicate IsLeastKey(m: RowKey, s: set<RowKey>) {
    m in s && forall k | k in s && k != m :: KeyLt(m, k)
  }

  lemma {:induction false} LeastKeyExists(s: set<RowKey>, run: string)
    requires s != {} && forall k | k in s :: k.run == run
    ensures exists m :: IsLeastKey(m, s)
    decreases |s|
  {
    var x :| x in s;
    if s == {x} {
      assert IsLeastKey(x, s);
    } else {
      LeastKeyExists(s - {x}, run);
      var m :| IsLeastKey(m, s - {x});
      KeyLtTotal(x, m, m);
      if KeyLt(m, x) {
        assert IsLeastKey(m, s);
      } else {
        forall k | k in s && k != x
          ensures KeyLt(x, k)
        {
          if k != m {
            KeyLtTotal(x, m, k);
          }
        }
        assert IsLeastKey(x, s);
      }
    }
  }

  // ---- The two stores ----------------------------------------------------

  class RunStateStore {
    var runs: map<string, Run>
    var rows: Rows

    constructor ()
      ensures runs == map[] && rows == map[]
    {
      runs, rows := map[], map[];
    }

    /** The insert is refused when the id exists. */
    method CreateRun(id: string, run: Run) returns (created: bool)
      modifies this`runs
      ensures created == (id !in old(runs))
      ensures runs == if created then old(runs)[id := run] else old(runs)
    {
      created := id !in runs;
      if created {
        runs := runs[id := run];
      }
    }

    method SaveRun(id: string, run: Run)
      modifies this`runs
      ensures runs == if id in old(runs) then old(runs)[id := run] else old(runs)
    {
      if id in runs {
        runs := runs[id := run];
      }
    }

    method UpsertNode(key: RowKey, row: Row)
      modifies this`rows
      ensures rows == old(rows)[key := row]
    {
      rows := rows[key := row];
    }

    /** Some row that carries the task; the one there is, if tasks are unique. */
    method GetNodeByTask(task: TaskId) returns (r: Option<RowKey>)
      ensures r == None <==> forall k | k in rows :: rows[k].task != task
      ensures r.Some? ==> r.value in rows && rows[r.value].task == task
      ensures TasksUnique(rows) ==> r == FindByTask(rows, task)
    {
      if exists k | k in rows :: rows[k].task == task {
        var k :| k in rows && rows[k].task == task;
        return Some(k);
      }
      return None;
    }

    method NodesForRun(run: string) returns (nodes: seq<RunNode>)
      ensures ListsRun(nodes, rows, run)
    {
      nodes := [];
      var todo := set k | k in rows && k.run == run;
      while todo != {}
        invariant forall k | k in todo :: k in rows && k.run == run
        invariant forall n | n in nodes :: n.key in rows && n.key.run == run && n.row == rows[n.key]
        invariant forall k | k in rows && k.run == run :: k in todo || RunNode(k, rows[k]) in nodes
        invariant forall i, j | 0 <= i < j < |nodes| :: KeyLt(nodes[i].key, nodes[j].key)
        invariant forall n, k | n in nodes && k in todo :: KeyLt(n.key, k)
      {
        LeastKeyExists(todo, run);
        ghost var least :| IsLeastKey(least, todo);
        var k :| k in todo && forall j | j in todo && j != k :: KeyLt(k, j);
        assert IsLeastKey(k, todo);
        nodes := nodes + [RunNode(k, rows[k])];
        todo := todo - {k};
      }
    }

    method ActiveRuns() returns (ids: seq<string>)
      ensures forall id :: id in ids <==> id in runs && runs[id].status in {RUNNING, PAUSED_HUMAN}
      ensures forall i, j | 0 <= i < j < |ids| :: ids[i] != ids[j]
    {
      ids := [];
      var todo := set id | id in runs && runs[id].status in {RUNNING, PAUSED_HUMAN};
      ghost var active := todo;
      while todo != {}
        invariant todo <= active
        invariant forall id :: id in ids <==> id in active - todo
        invariant forall i, j | 0 <= i < j < |ids| :: ids[i] != ids[j]
      {
        var id :| id in todo;
        assert id !in ids;
        ids := ids + [id];
        todo := todo - {id};
      }
    }
  }

  class KanbanBoard {
    var cards: map<string, Card>
    var blocked: set<TaskId>

    constructor ()
      ensures cards == map[] && blocked == {}
    {
      cards, blocked := map[], {};
    }

    /** Creating a key again returns the id it already has. */
    method CreateCard(text: string, card: Card) returns (task: TaskId)
      modifies this`cards
      ensures task == TaskId(text)
      ensures cards == if text in old(cards) then old(cards) else old(cards)[text := card]
    {
      if text !in cards {
        cards := cards[text := card];
      }
      task := TaskId(text);
    }

    method BlockCard(task: TaskId)
      modifies this`blocked
      ensures blocked == old(blocked) + {task}
    {
      blocked := blocked + {task};
    }
  }
}

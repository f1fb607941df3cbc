/** The Redis key families and the strings that name them. */
module Keys {
  import opened Basics

  /** One constructor a naming function; the argument is the name it is given. */
  datatype Key =
    | QueueKey(name: string)
    | PriorityKey(name: string)
    | CronKey(name: string)
    | ActiveKey(name: string)
    | DelayedKey(name: string)
    | RetryKey(name: string)
    | DeadKey(name: string)
    | DedupKey(name: string)
    | TaskKey(name: string)
    | PauseKey(name: string)
    | StatsKey(name: string)
    | PendingDepsKey(name: string)
    | TaskDepsKey(name: string)
    | ProgressKey(name: string)
    | GroupKey(name: string)
    | MetaQueuesKey
    | MetaWorkersKey
    | MetaWorkerKey(name: string)
    | MetaHeartbeatKey(name: string)
    | MetaGroupKey(name: string)

  /** The sorted sets from which tasks go to a worker or to the queue of the same name. */
  predicate Scheduling(k: Key) {
    k.PriorityKey? || k.RetryKey? || k.DelayedKey?
  }

  const PREFIX := "rediq"

  function Family(k: Key): string {
    match k
    case QueueKey(_) => "queue"
    case PriorityKey(_) => "pqueue"
    case CronKey(_) => "cron"
    case ActiveKey(_) => "active"
    case DelayedKey(_) => "delayed"
    case RetryKey(_) => "retry"
    case DeadKey(_) => "dead"
    case DedupKey(_) => "dedup"
    case TaskKey(_) => "task"
    case PauseKey(_) => "pause"
    case StatsKey(_) => "stats"
    case PendingDepsKey(_) => "pending_deps"
    case TaskDepsKey(_) => "task_deps"
    case ProgressKey(_) => "progress"
    case GroupKey(_) => "group"
    case MetaQueuesKey => "queues"
    case MetaWorkersKey => "workers"
    case MetaWorkerKey(_) => "worker"
    case MetaHeartbeatKey(_) => "heartbeat"
    case MetaGroupKey(_) => "group"
  }

  /** The string that names a key in Redis. */
  function Render(k: Key): string {
    match k
    case MetaQueuesKey => PREFIX + ":meta:" + Family(k)
    case MetaWorkersKey => PREFIX + ":meta:" + Family(k)
    case MetaWorkerKey(n) => PREFIX + ":meta:" + (Family(k) + ":" + n)
    case MetaHeartbeatKey(n) => PREFIX + ":meta:" + (Family(k) + ":" + n)
    case MetaGroupKey(n) => PREFIX + ":meta:" + (Family(k) + ":" + n)
    case _ => PREFIX + ":" + (Family(k) + ":" + k.name)
  }

  /** The part before the first colon and the part after it, if there is a colon. */
  function Cut(s: string): (string, Option<string>) {
    if s == "" then ("", None)
    else if s[0] == ':' then ("", Some(s[1..]))
    else var (head, rest) := Cut(s[1..]); ([s[0]] + head, rest)
  }

  function FromFamily(family: string, name: string): Option<Key> {
    if family == "queue" then Some(QueueKey(name))
    else if family == "pqueue" then Some(PriorityKey(name))
    else if family == "cron" then Some(CronKey(name))
    else if family == "active" then Some(ActiveKey(name))
    else if family == "delayed" then Some(DelayedKey(name))
    else if family == "retry" then Some(RetryKey(name))
    else if family == "dead" then Some(DeadKey(name))
    else if family == "dedup" then Some(DedupKey(name))
    else if family == "task" then Some(TaskKey(name))
    else if family == "pause" then Some(PauseKey(name))
    else if family == "stats" then Some(StatsKey(name))
    else if family == "pending_deps" then Some(PendingDepsKey(name))
    else if family == "task_deps" then Some(TaskDepsKey(name))
    else if family == "progress" then Some(ProgressKey(name))
    else if family == "group" then Some(GroupKey(name))
    else None
  }

  function FromMetaFamily(family: string, name: Option<string>): Option<Key> {
    match name
    case None =>
      if family == "queues" then Some(MetaQueuesKey)
      else if family == "workers" then Some(MetaWorkersKey)
      else None
    case Some(n) =>
      if family == "worker" then Some(MetaWorkerKey(n))
      else if family == "heartbeat" then Some(MetaHeartbeatKey(n))
      else if family == "group" then Some(MetaGroupKey(n))
      else None
  }

  /** Reads the part of a key name after the prefix. */
  function ReadBody(body: string): Option<Key> {
    match Cut(body)
    case (_, None) => None
    case (family, Some(rest)) =>
      if family == "meta" then FromMetaFamily(Cut(rest).0, Cut(rest).1)
      else FromFamily(family, rest)
  }

  /** Reads a key name back; None if no naming function gives this string. */
  function Read(s: string): Option<Key> {
    match StripPrefix(s, PREFIX + ":")
    case None => None
    case Some(body) => ReadBody(body)
  }

  lemma {:induction false} CutFirst(family: string, name: string)
    requires ':' !in family
    ensures Cut(family + ":" + name) == (family, Some(name))
  {
    var s := family + ":" + name;
    if family == "" {
      assert s[1..] == name;
    } else {
      CutFirst(family[1..], name);
      assert s[1..] == family[1..] + ":" + name;
      assert family == [family[0]] + family[1..];
    }
  }

  lemma {:induction false} CutNone(s: string)
    requires ':' !in s
    ensures Cut(s) == (s, None)
  {
    if s != "" {
      CutNone(s[1..]);
      assert s == [s[0]] + s[1..];
    }
  }

  predicate IsMeta(k: Key) {
    k.MetaQueuesKey? || k.MetaWorkersKey? || k.MetaWorkerKey? || k.MetaHeartbeatKey? || k.MetaGroupKey?
  }

  function NameOf(k: Key): Option<string> {
    if k.MetaQueuesKey? || k.MetaWorkersKey? then None else Some(k.name)
  }

  lemma FamilyPlain(k: Key)
    ensures ':' !in Family(k)
    ensures Family(k) != "meta"
  {
  }

  lemma FromFamilyBack(k: Key)
    requires !IsMeta(k)
    ensures FromFamily(Family(k), k.name) == Some(k)
  {
  }

  lemma FromMetaFamilyBack(k: Key)
    requires IsMeta(k)
    ensures FromMetaFamily(Family(k), NameOf(k)) == Some(k)
  {
  }

  lemma RenderShape(k: Key)
    ensures Render(k) == PREFIX + ":" +
      if IsMeta(k) then "meta" + ":" + MetaBody(k) else Family(k) + ":" + k.name
  {
  }

  function MetaBody(k: Key): string
    requires IsMeta(k)
  {
    match NameOf(k)
    case None => Family(k)
    case Some(n) => Family(k) + ":" + n
  }

  /** Every key name is read back to the key it was made from. */
  lemma ReadRender(k: Key)
    ensures Read(Render(k)) == Some(k)
  {
    RenderShape(k);
    FamilyPlain(k);
    if IsMeta(k) {
      CutFirst("meta", MetaBody(k));
      if NameOf(k).Some? {
        CutFirst(Family(k), k.name);
      } else {
        CutNone(Family(k));
      }
      FromMetaFamilyBack(k);
    } else {
      CutFirst(Family(k), k.name);
      FromFamilyBack(k);
    }
  }

  /**
   * No two keys share a name, whatever strings the names contain. This is what allows the
   * rest of the model to index the store by Key.
   */
  lemma RenderInjective(a: Key, b: Key)
    requires Render(a) == Render(b)
    ensures a == b
  {
    ReadRender(a);
    ReadRender(b);
  }

  /** The lists and sorted sets of a queue, by name. */
  lemma ContainerNames(name: string)
    ensures Render(QueueKey(name)) == "rediq:queue:" + name
    ensures Render(PriorityKey(name)) == "rediq:pqueue:" + name
    ensures Render(CronKey(name)) == "rediq:cron:" + name
    ensures Render(ActiveKey(name)) == "rediq:active:" + name
    ensures Render(DelayedKey(name)) == "rediq:delayed:" + name
    ensures Render(RetryKey(name)) == "rediq:retry:" + name
    ensures Render(DeadKey(name)) == "rediq:dead:" + name
  {
    assert PREFIX + ":" + ("queue" + ":" + name) == "rediq:queue:" + name;
    assert PREFIX + ":" + ("pqueue" + ":" + name) == "rediq:pqueue:" + name;
    assert PREFIX + ":" + ("cron" + ":" + name) == "rediq:cron:" + name;
    assert PREFIX + ":" + ("active" + ":" + name) == "rediq:active:" + name;
    assert PREFIX + ":" + ("delayed" + ":" + name) == "rediq:delayed:" + name;
    assert PREFIX + ":" + ("retry" + ":" + name) == "rediq:retry:" + name;
    assert PREFIX + ":" + ("dead" + ":" + name) == "rediq:dead:" + name;
  }

  /** The other keys of queues, tasks and groups, by name. */
  lemma OtherNames(name: string)
    ensures Render(DedupKey(name)) == "rediq:dedup:" + name
    ensures Render(PauseKey(name)) == "rediq:pause:" + name
    ensures Render(StatsKey(name)) == "rediq:stats:" + name
    ensures Render(TaskKey(name)) == "rediq:task:" + name
    ensures Render(PendingDepsKey(name)) == "rediq:pending_deps:" + name
    ensures Render(TaskDepsKey(name)) == "rediq:task_deps:" + name
    ensures Render(ProgressKey(name)) == "rediq:progress:" + name
    ensures Render(GroupKey(name)) == "rediq:group:" + name
  {
    assert PREFIX + ":" + ("dedup" + ":" + name) == "rediq:dedup:" + name;
    assert PREFIX + ":" + ("pause" + ":" + name) == "rediq:pause:" + name;
    assert PREFIX + ":" + ("stats" + ":" + name) == "rediq:stats:" + name;
    assert PREFIX + ":" + ("task" + ":" + name) == "rediq:task:" + name;
    assert PREFIX + ":" + ("pending_deps" + ":" + name) == "rediq:pending_deps:" + name;
    assert PREFIX + ":" + ("task_deps" + ":" + name) == "rediq:task_deps:" + name;
    assert PREFIX + ":" + ("progress" + ":" + name) == "rediq:progress:" + name;
    assert PREFIX + ":" + ("group" + ":" + name) == "rediq:group:" + name;
  }

  /** The metadata keys, by name. */
  lemma MetaNames(name: string)
    ensures Render(MetaQueuesKey) == "rediq:meta:queues" && Render(MetaWorkersKey) == "rediq:meta:workers"
    ensures Render(MetaGroupKey(name)) == "rediq:meta:group:" + name
  {
    MetaGroupRender(name);
  }

  lemma WorkerNames(name: string)
    ensures Render(MetaWorkerKey(name)) == "rediq:meta:worker:" + name
    ensures Render(MetaHeartbeatKey(name)) == "rediq:meta:heartbeat:" + name
  {
    assert PREFIX + ":meta:" + ("worker" + ":" + name) == "rediq:meta:worker:" + name;
    assert PREFIX + ":meta:" + ("heartbeat" + ":" + name) == "rediq:meta:heartbeat:" + name;
  }

  /** The group name that the scheduler takes from a scanned key. */
  function GroupName(metaKey: string): string {
    match StripPrefix(metaKey, "rediq:meta:group:")
    case Some(group) => group
    case None => metaKey
  }

  lemma MetaGroupRender(group: string)
    ensures Render(MetaGroupKey(group)) == "rediq:meta:group:" + group
  {
    var parts := PREFIX + ":meta:" + ("group" + ":" + group);
    assert parts == "rediq:meta:group:" + group;
  }

  /** The scheduler recovers every group name, and only group metadata keys lose a prefix. */
  lemma GroupNameUndoesMetaGroup(k: Key)
    ensures k.MetaGroupKey? ==> GroupName(Render(k)) == k.name
    ensures !k.MetaGroupKey? ==> GroupName(Render(k)) == Render(k)
  {
    var prefix := "rediq:meta:group:";
    var name := Render(k);
    if k.MetaGroupKey? {
      MetaGroupRender(k.name);
      assert (prefix + k.name)[|prefix|..] == k.name;
    } else if prefix <= name {
      var rest := name[|prefix|..];
      assert name == prefix + rest;
      MetaGroupRender(rest);
      RenderInjective(k, MetaGroupKey(rest));
    }
  }

  /** The names that the scripts put together themselves are the ones that the naming functions give. */
  lemma ScriptsAgree(name: string)
    ensures Render(PendingDepsKey(name)) == "rediq:pending_deps:" + name
    ensures Render(TaskKey(name)) == "rediq:task:" + name
    ensures Render(QueueKey(name)) == "rediq:queue:" + name
    ensures Render(MetaQueuesKey) == "rediq:meta:queues"
  {
    assert PREFIX + ":" + ("pending_deps" + ":" + name) == "rediq:pending_deps:" + name;
    assert PREFIX + ":" + ("task" + ":" + name) == "rediq:task:" + name;
    assert PREFIX + ":" + ("queue" + ":" + name) == "rediq:queue:" + name;
  }
}

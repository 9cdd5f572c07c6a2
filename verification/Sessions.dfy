/** The connections of the event loop: the intrusive list of sessions with the
 *  login states, and the outgoing queue of one connection. */
module Sessions {
  import opened Sequences
  import opened Text

  datatype Phase = WaitName | WaitRace | WaitHub | Playing

  function Rank(p: Phase): nat {
    match p
    case WaitName => 0
    case WaitRace => 1
    case WaitHub => 2
    case Playing => 3
  }

  predicate Registered(p: Phase) {
    p == WaitHub || p == Playing
  }

  class Session {
    var phase: Phase
    var name: string
    var next: Session?

    constructor ()
      ensures phase == WaitName && next == null
    {
      phase := WaitName;
      name := "";
      next := null;
    }
  }

  /** s without its i-th element. */
  function Without<T>(s: seq<T>, i: nat): seq<T>
    requires i < |s|
  {
    s[..i] + s[i + 1..]
  }

  function NodeAt(list: seq<Session>, i: nat): Session? {
    if i < |list| then list[i] else null
  }

  lemma WithoutAt<T>(s: seq<T>, i: nat)
    requires i < |s| && Distinct(s)
    ensures forall j :: 0 <= j < |Without(s, i)| ==> Without(s, i)[j] == s[if j < i then j else j + 1]
    ensures forall x :: x in s && x != s[i] ==> x in Without(s, i)
    ensures Distinct(Without(s, i)) && s[i] !in Without(s, i)
  {
    forall x | x in s && x != s[i] ensures x in Without(s, i) {
      var k :| 0 <= k < |s| && s[k] == x;
      assert Without(s, i)[if k < i then k else k - 1] == x;
    }
  }

  class SessionList {
    var sessions: Session?
    ghost var list: seq<Session>   // the nodes reachable from sessions, in order
    ghost var open: set<Session>   // the connections that are established

    /** The list is a chain of distinct nodes ending in null; nodes off it point nowhere. */
    ghost predicate Chain()
      reads this, list, open
    {
      && sessions == NodeAt(list, 0)
      && (forall s :: s in list ==> s in open)
      && Distinct(list)
      && (forall i {:trigger list[i].next} :: 0 <= i < |list| ==> list[i].next == NodeAt(list, i + 1))
      && (forall s :: s in open && s !in list ==> s.next == null)
    }

    /** The list holds exactly the open connections that wait for the hub or play. */
    ghost predicate Valid()
      reads this, list, open
    {
      && Chain()
      && (forall s :: s in open ==> (s in list <==> Registered(s.phase)))
    }

    constructor ()
      ensures Valid() && list == [] && open == {}
    {
      sessions := null;
      list := [];
      open := {};
    }

    /** LWS_CALLBACK_ESTABLISHED. */
    method Connect() returns (s: Session)
      requires Valid()
      modifies this
      ensures Valid() && fresh(s)
      ensures open == old(open) + {s} && list == old(list) && s.phase == WaitName
    {
      s := new Session();
      open := open + {s};
    }

    /** session_register: a session already listed stays where it is. */
    method Register(s: Session)
      requires Chain() && s in open
      modifies this`sessions, this`list, s`next
      ensures Chain()
      ensures list == if s in old(list) then old(list) else [s] + old(list)
    {
      var existing := sessions;
      ghost var i := 0;
      while existing != null
        invariant 0 <= i <= |list|
        invariant existing == NodeAt(list, i)
        invariant s !in list[..i]
        decreases |list| - i
      {
        if existing == s {
          return;
        }
        existing := existing.next;
        i := i + 1;
      }
      assert list[..i] == list;
      s.next := sessions;
      sessions := s;
      ghost var was := list;
      list := [s] + list;
      assert forall j :: 0 <= j < |list| ==> list[j] == if j == 0 then s else was[j - 1];
    }

    /** session_unregister: unlinks exactly the node, or does nothing. */
    method Unregister(s: Session) returns (ghost at: nat)
      requires Chain() && s in open
      modifies this`sessions, this`list, open`next
      ensures Chain() && s !in list
      ensures at <= |old(list)|
      ensures if at < |old(list)| then old(list)[at] == s && list == Without(old(list), at)
              else s !in old(list) && list == old(list)
    {
      var previous: Session? := null;
      var cursor := sessions;
      at := 0;
      while cursor != null
        invariant 0 <= at <= |list|
        invariant cursor == NodeAt(list, at)
        invariant previous == if at == 0 then null else list[at - 1]
        invariant s !in list[..at]
        decreases |list| - at
      {
        if cursor == s {
          Unlink(s, previous, at);
          return;
        }
        previous := cursor;
        cursor := cursor.next;
        at := at + 1;
      }
      assert list[..at] == list;
    }

    method Unlink(s: Session, previous: Session?, ghost i: nat)
      requires Chain() && i < |list| && list[i] == s
      requires previous == if i == 0 then null else list[i - 1]
      modifies this`sessions, this`list, s`next, list`next
      ensures Chain() && s !in list && list == Without(old(list), i)
    {
      WithoutAt(list, i);
      if previous == null {
        sessions := s.next;
      } else {
        previous.next := s.next;
      }
      s.next := null;
      ghost var was := list;
      list := Without(list, i);
      forall j | 0 <= j < |list| ensures list[j].next == NodeAt(list, j + 1) {
        assert list[j] == was[if j < i then j else j + 1];
      }
    }

    /** finish_login_playing: safe to call for a session listed already. */
    method FinishLoginPlaying(s: Session)
      requires Valid() && s in open
      modifies this`sessions, this`list, s`next, s`phase
      ensures Valid() && s.phase == Playing
      ensures list == if s in old(list) then old(list) else [s] + old(list)
    {
      s.phase := Playing;
      Register(s);
    }

    /** finish_login: with the federation worker running the session first waits. */
    method FinishLogin(s: Session, federated: bool)
      requires Valid() && s in open && !Registered(s.phase)
      modifies this`sessions, this`list, s`next, s`phase
      ensures Valid() && list == [s] + old(list)
      ensures s.phase == if federated then WaitHub else Playing
    {
      if federated {
        s.phase := WaitHub;
        Register(s);
        return;
      }
      FinishLoginPlaying(s);
    }

    /** handle_command before play: the answer of the store decides on a name,
     *  the parsed race on a life; a waiting session ignores its input. */
    method HandleInput(s: Session, input: string, loaded: int, raceKnown: bool, saved: bool, federated: bool)
      requires Valid() && s in open
      modifies this`sessions, this`list, s`next, s`phase, s`name
      ensures Valid()
      ensures Rank(old(s.phase)) <= Rank(s.phase)
      ensures old(s.phase) == WaitName ==>
                s.phase == if loaded < 0 then WaitName else if loaded == 1 then (if federated then WaitHub else Playing)
                           else WaitRace
      ensures old(s.phase) == WaitRace ==>
                s.phase == if raceKnown && saved then (if federated then WaitHub else Playing) else WaitRace
      ensures Registered(old(s.phase)) ==> s.phase == old(s.phase) && list == old(list)
      ensures list == if Registered(s.phase) && !Registered(old(s.phase)) then [s] + old(list) else old(list)
    {
      match s.phase
      case WaitName =>
        if loaded < 0 { return; }
        s.name := input;
        if loaded == 1 {
          FinishLogin(s, federated);
        } else {
          s.phase := WaitRace;
        }
      case WaitRace =>
        if raceKnown && saved { FinishLogin(s, federated); }
      case WaitHub =>
      case Playing =>
    }

    /** drain_char_load_results, for one answer: the first waiting session of the
     *  name enters play. */
    method HandleAnswer(name: string) returns (entered: Session?, ghost at: nat)
      requires Valid()
      modifies this`sessions, this`list, list`next, list`phase
      ensures Valid() && list == old(list)
      ensures at <= |list| && entered == NodeAt(list, at)
      ensures forall j :: 0 <= j < at ==> !(old(list[j].phase) == WaitHub && SameName(list[j].name, name))
      ensures entered != null ==> old(entered.phase) == WaitHub && SameName(entered.name, name) && entered.phase == Playing
      ensures forall s :: s in list && s != entered ==> s.phase == old(s.phase)
    {
      var s := sessions;
      at := 0;
      while s != null
        invariant 0 <= at <= |list|
        invariant s == NodeAt(list, at)
        invariant forall j :: 0 <= j < at ==> !(list[j].phase == WaitHub && SameName(list[j].name, name))
        decreases |list| - at
      {
        if s.phase == WaitHub && SameName(s.name, name) {
          FinishLoginPlaying(s);
          return s, at;
        }
        s := s.next;
        at := at + 1;
      }
      return null, at;
    }

    /** session_find: the first playing session of the name. */
    method Find(name: string) returns (found: Session?, ghost at: nat)
      requires Valid()
      ensures at <= |list| && found == NodeAt(list, at)
      ensures forall j :: 0 <= j < at ==> !(list[j].phase == Playing && SameName(list[j].name, name))
      ensures found != null ==> found.phase == Playing && SameName(found.name, name)
    {
      found := sessions;
      at := 0;
      while found != null
        invariant 0 <= at <= |list|
        invariant found == NodeAt(list, at)
        invariant forall j :: 0 <= j < at ==> !(list[j].phase == Playing && SameName(list[j].name, name))
        decreases |list| - at
      {
        if found.phase == Playing && SameName(found.name, name) {
          return;
        }
        found := found.next;
        at := at + 1;
      }
    }

    /** LWS_CALLBACK_CLOSED. */
    method Close(s: Session) returns (ghost at: nat)
      requires Valid() && s in open
      modifies this, open`next
      ensures Valid() && open == old(open) - {s}
      ensures at <= |old(list)|
      ensures if at < |old(list)| then old(list)[at] == s && list == Without(old(list), at)
              else s !in old(list) && list == old(list)
    {
      at := Unregister(s);
      open := open - {s};
    }
  }

  class Message {
    const text: string
    var next: Message?

    constructor (text: string)
      ensures this.text == text && next == null
    {
      this.text := text;
      next := null;
    }
  }

  function Texts(nodes: seq<Message>): seq<string> {
    if nodes == [] then [] else [nodes[0].text] + Texts(nodes[1..])
  }

  lemma {:induction false} TextsSnoc(nodes: seq<Message>, m: Message)
    ensures Texts(nodes + [m]) == Texts(nodes) + [m.text]
  {
    if nodes == [] {
      assert [m][1..] == [];
    } else {
      assert (nodes + [m])[1..] == nodes[1..] + [m];
      TextsSnoc(nodes[1..], m);
    }
  }

  /** Moving the head's text over to what was written keeps the whole. */
  lemma TextsMove(written: seq<string>, nodes: seq<Message>)
    requires nodes != []
    ensures written + [nodes[0].text] + Texts(nodes[1..]) == written + Texts(nodes)
  {
  }

  function MessageAt(nodes: seq<Message>, i: nat): Message? {
    if i < |nodes| then nodes[i] else null
  }

  /** out_head and out_tail of a session. */
  class Outgoing {
    var head: Message?
    var tail: Message?
    ghost var nodes: seq<Message>      // reachable from head, in order
    ghost var written: seq<string>     // handed to the socket in full
    ghost var enqueued: seq<string>    // every text ever queued

    ghost predicate Linked()
      reads this, nodes
    {
      && head == MessageAt(nodes, 0)
      && tail == (if nodes == [] then null else Last(nodes))
      && Distinct(nodes)
      && (forall i {:trigger nodes[i].next} :: 0 <= i < |nodes| ==> nodes[i].next == MessageAt(nodes, i + 1))
    }

    /** First in, first out: written ++ waiting is all that was queued. */
    ghost predicate Valid()
      reads this, nodes
    {
      Linked() && written + Texts(nodes) == enqueued
    }

    constructor ()
      ensures Valid() && nodes == [] && enqueued == []
    {
      head, tail := null, null;
      nodes, written, enqueued := [], [], [];
    }

    /** queue_owned; without memory for a node the text is discarded. */
    method Enqueue(text: string, memory: bool) returns (ok: bool)
      requires Valid()
      modifies this, tail
      ensures Valid() && ok == memory
      ensures written == old(written)
      ensures enqueued == if ok then old(enqueued) + [text] else old(enqueued)
      ensures forall m :: m in nodes ==> m in old(nodes) || fresh(m)
    {
      if !memory {
        return false;
      }
      var message := new Message(text);
      if tail == null {
        head := message;
      } else {
        tail.next := message;
      }
      tail := message;
      TextsSnoc(nodes, message);
      nodes := nodes + [message];
      enqueued := enqueued + [text];
      return true;
    }

    /** LWS_CALLBACK_SERVER_WRITEABLE: the head leaves only when all of it was
     *  written; a failed write keeps the queue as it is. */
    method WriteOne(sent: bool) returns (ok: bool)
      requires Valid()
      modifies this
      ensures Valid() && enqueued == old(enqueued)
      ensures ok == (sent || old(nodes) == [])
      ensures if sent && old(nodes) != [] then
                nodes == old(nodes)[1..] && written == old(written) + [old(nodes)[0].text]
              else nodes == old(nodes) && written == old(written)
    {
      if head != null {
        if !sent {
          return false;
        }
        TextsMove(written, nodes);
        written := written + [head.text];
        head := head.next;
        if head == null {
          tail := null;
        }
        nodes := nodes[1..];
      }
      return true;
    }

    /** free_messages: releases every node once, in order. */
    method Free() returns (ghost released: seq<Message>)
      requires Valid()
      modifies this
      ensures head == null && tail == null && nodes == [] && Linked()
      ensures released == old(nodes)
      ensures Distinct(released)
      ensures written + Texts(released) == enqueued == old(enqueued)
    {
      released := [];
      ghost var all := nodes;
      while head != null
        invariant nodes == all && enqueued == old(enqueued) && written == old(written)
        invariant forall i {:trigger all[i].next} :: 0 <= i < |all| ==> all[i].next == MessageAt(all, i + 1)
        invariant |released| <= |all| && released == all[..|released|]
        invariant head == MessageAt(all, |released|)
        decreases |all| - |released|
      {
        var message := head;
        head := message.next;
        released := released + [message];
      }
      tail := null;
      nodes := [];
    }
  }
}

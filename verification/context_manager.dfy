/**
 * The per-user conversation history of the assistant: a dictionary from
 * user id to a bounded FIFO buffer (`deque(maxlen=N)`), created lazily on a
 * user's first message.
 */
module Context {

  /** One stored turn, the `{"role": ..., "content": ...}` dictionary. */
  datatype Message = Message(role: string, content: string)

  /** The capacity the module-level instance is created with. */
  const DefaultMaxHistorySize: int := 10

  /** The last `n` elements of `s` (all of `s` when it is shorter). */
  function Window<T>(s: seq<T>, n: nat): (w: seq<T>)
    ensures |w| == if |s| <= n then |s| else n
    ensures w == s[|s| - |w|..]
  {
    if |s| <= n then s else s[|s| - n..]
  }

  /**
   * What `deque.append` does to a buffer created with `maxlen=n`: a buffer
   * with no room left drops its leftmost (oldest) element first; with
   * `maxlen=0` nothing is ever kept.
   */
  function Appended(buf: seq<Message>, m: Message, n: nat): (r: seq<Message>)
    ensures |buf| <= n ==> |r| <= n
    ensures n > 0 ==> |r| == (if |buf| < n then |buf| + 1 else |buf|) && r[|r| - 1] == m
  {
    if n == 0 then buf
    else if |buf| >= n then buf[1..] + [m]
    else buf + [m]
  }

  /** `Appended` applied to each message of `msgs` in turn. */
  function Replay(buf: seq<Message>, msgs: seq<Message>, n: nat): (r: seq<Message>)
    ensures |buf| <= n ==> |r| <= n
    ensures n > 0 && msgs != [] ==> |r| > 0 && r[|r| - 1] == msgs[|msgs| - 1]
    decreases |msgs|
  {
    if msgs == [] then buf else Replay(Appended(buf, msgs[0], n), msgs[1..], n)
  }

  /** Two appends to a buffer of capacity two or more leave the two messages, in order, as its newest elements. */
  lemma AppendedTwice(buf: seq<Message>, m1: Message, m2: Message, n: nat)
    requires |buf| <= n && n > 0
    ensures var r := Appended(Appended(buf, m1, n), m2, n);
      && |r| > 0 && r[|r| - 1] == m2
      && (n > 1 ==> |r| > 1 && r[|r| - 2] == m1)
  {
    var once := Appended(buf, m1, n);
    if n > 1 {
      if |once| < n {
        assert Appended(once, m2, n) == once + [m2];
      } else {
        assert Appended(once, m2, n) == once[1..] + [m2];
      }
    }
  }

  /**
   * At capacity, the last `n` of everything appended so far are the old
   * buffer without its oldest element, followed by the message: exactly one
   * element, the oldest, leaves.
   */
  lemma AppendedEvictsOldest(buf: seq<Message>, m: Message, n: nat)
    requires |buf| == n && n > 0
    ensures Window(buf + [m], n) == buf[1..] + [m]
    ensures multiset(Appended(buf, m, n)) + multiset{buf[0]} == multiset(buf) + multiset{m}
  {
    assert (buf + [m])[|buf + [m]| - n..] == buf[1..] + [m];
    assert buf == [buf[0]] + buf[1..];
  }

  /** The deque step agrees with the reference definition: the last `n` of the buffer followed by the message. */
  lemma AppendedIsWindow(buf: seq<Message>, m: Message, n: nat)
    requires |buf| <= n
    ensures Appended(buf, m, n) == Window(buf + [m], n)
  {
    if n > 0 && |buf| >= n {
      assert (buf + [m])[|buf + [m]| - n..] == buf[1..] + [m];
    }
  }

  lemma DropConcat(s: seq<Message>, t: seq<Message>, a: nat)
    requires a <= |s|
    ensures s[a..] + t == (s + t)[a..]
  {
    var l, r := s[a..] + t, (s + t)[a..];
    assert |l| == |r|;
    forall i | 0 <= i < |l| ensures l[i] == r[i] {
      if i < |s| - a {
        assert l[i] == s[a + i];
      } else {
        assert l[i] == t[i - (|s| - a)];
      }
    }
  }

  /** A suffix at least as long as the window has the same window. */
  lemma WindowOfSuffix(x: seq<Message>, a: nat, n: nat)
    requires a <= |x| && |x| - a >= |Window(x, n)|
    ensures Window(x[a..], n) == Window(x, n)
  {
    var k := |Window(x, n)|;
    assert |Window(x[a..], n)| == k;
    assert x[a..][|x| - a - k..] == x[|x| - k..];
  }

  /** Taking the last `n` of a prefix first does not change the last `n` of the whole. */
  lemma WindowOfWindow(s: seq<Message>, t: seq<Message>, n: nat)
    ensures Window(Window(s, n) + t, n) == Window(s + t, n)
  {
    var w := Window(s, n);
    var a := |s| - |w|;
    DropConcat(s, t, a);
    WindowOfSuffix(s + t, a, n);
  }

  /** One step of `Replay`: the first message is appended, then the rest. */
  lemma ReplayStep(buf: seq<Message>, msgs: seq<Message>, n: nat)
    requires msgs != []
    ensures Replay(buf, msgs, n) == Replay(Appended(buf, msgs[0], n), msgs[1..], n)
  {
  }

  lemma ConcatFirst(buf: seq<Message>, msgs: seq<Message>)
    requires msgs != []
    ensures buf + [msgs[0]] + msgs[1..] == buf + msgs
  {
    assert msgs == [msgs[0]] + msgs[1..];
  }

  /**
   * FIFO law: appending `msgs` one by one to a buffer that respects its
   * bound leaves exactly the last `n` of everything ever appended, in
   * append order. For a fresh user (`buf == []`) that is the last
   * min(|msgs|, n) messages.
   */
  lemma {:induction false} ReplayIsWindow(buf: seq<Message>, msgs: seq<Message>, n: nat)
    requires |buf| <= n
    ensures Replay(buf, msgs, n) == Window(buf + msgs, n)
    decreases |msgs|
  {
    if msgs == [] {
      assert buf + msgs == buf;
    } else {
      var m, rest := msgs[0], msgs[1..];
      var next := Appended(buf, m, n);
      ReplayStep(buf, msgs, n);
      ReplayIsWindow(next, rest, n);
      AppendedIsWindow(buf, m, n);
      WindowOfWindow(buf + [m], rest, n);
      ConcatFirst(buf, msgs);
    }
  }

  /** A user's stored turns, or none for a user never seen. */
  function HistoryIn(history: map<int, seq<Message>>, userId: int): seq<Message>
  {
    if userId in history then history[userId] else []
  }

  /** The dictionary of per-user buffers together with their common capacity. */
  class ContextManager {
    var history: map<int, seq<Message>>
    var maxHistorySize: int

    /** Every stored buffer respects the capacity (so none exists while the capacity is negative). */
    ghost predicate Valid()
      reads this
    {
      forall u :: u in history ==> |history[u]| <= maxHistorySize
    }

    constructor (maxHistorySize: int)
      ensures Valid()
      ensures history == map[] && this.maxHistorySize == maxHistorySize
    {
      history := map[];
      this.maxHistorySize := maxHistorySize;
    }

    /**
     * Creates the user's buffer if it is missing, then appends the message.
     * `raised` is the `ValueError` that `deque(maxlen=...)` raises for a
     * negative capacity; then nothing is stored.
     */
    method AddMessage(userId: int, role: string, content: string) returns (raised: bool)
      requires Valid()
      modifies this
      ensures Valid() && maxHistorySize == old(maxHistorySize)
      ensures raised <==> maxHistorySize < 0
      ensures raised ==> history == old(history)
      ensures !raised ==> history == old(history)[userId := Appended(HistoryIn(old(history), userId), Message(role, content), maxHistorySize as nat)]
    {
      if userId !in history {
        if maxHistorySize < 0 {
          return true;
        }
        history := history[userId := []];
      }
      history := history[userId := Appended(history[userId], Message(role, content), maxHistorySize as nat)];
      raised := false;
    }

    /** A copy of the user's buffer; an unknown user gets an empty list and no entry is created. */
    method GetHistory(userId: int) returns (h: seq<Message>)
      ensures userId in history ==> h == history[userId]
      ensures userId !in history ==> h == []
    {
      h := if userId in history then history[userId] else [];
    }
  }
}

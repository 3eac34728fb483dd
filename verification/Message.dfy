/** Messages of a topic (base_queue/message.c). */
module Messages {

  /** A queued message. Identity and priority are fixed when the message is built;
      only the delay fields are assigned afterwards. */
  class Message {
    const messageid: int
    const priority: int
    var activetime: int
    var delay: int

    /** A new message is due its delay after its creation time. */
    constructor (messageid: int, priority: int, createtime: int, delay: int)
      ensures this.messageid == messageid && this.priority == priority
      ensures this.delay == delay && activetime == createtime + delay
    {
      this.messageid := messageid;
      this.priority := priority;
      this.activetime := createtime + delay;
      this.delay := delay;
    }

    /** Pushes the due time back by `d` and remembers `d`. */
    method SetMessageDelay(d: int)
      modifies this
      ensures activetime == old(activetime) + d && delay == d
    {
      activetime := activetime + d;
      delay := d;
    }

    predicate IsWaitFinished(timestamp: int)
      reads this
    {
      activetime <= timestamp
    }

    predicate IsMessage(id: int) {
      messageid == id
    }
  }

  /** The two comparators a heap is built with. */
  datatype Order = ByPriority | ByActiveTime

  /** What a heap compares: the due time, where it counts, then the priority. */
  function Key(o: Order, m: Message): (int, int)
    reads m
  {
    (if o == ByActiveTime then m.activetime else 0, m.priority)
  }

  predicate KeyLess(a: (int, int), b: (int, int)) {
    a.0 < b.0 || (a.0 == b.0 && a.1 <= b.1)
  }

  /** `a` may stay above `b` in a heap: lower priority values first, or earlier due
      times first with ties broken by priority. */
  predicate Less(o: Order, a: Message, b: Message)
    reads a, b
    ensures Less(o, a, b) <==> KeyLess(Key(o, a), Key(o, b))
  {
    match o
    case ByPriority => a.priority <= b.priority
    case ByActiveTime =>
      if a.activetime < b.activetime then true
      else a.activetime == b.activetime && a.priority <= b.priority
  }
}

/** The interpreter's call stack: a stack of activation records, each a named frame that
    maps variable names to values. Both are objects the interpreter changes in place. */
module Runtime {
  import opened Wrappers

  /** The kind of a frame; a program's frame is the only kind there is. */
  datatype ARType = ProgramFrame

  /** A frame: its name, kind and nesting level, fixed at creation, and the values of the
      variables assigned in it. V is the type of the values stored. */
  class ActivationRecord<V> {
    const name: string
    const arType: ARType
    const nestingLevel: int
    var members: map<string, V>

    /** A new frame holds no members. */
    constructor(name: string, arType: ARType, nestingLevel: int)
      ensures this.name == name && this.arType == arType && this.nestingLevel == nestingLevel
      ensures members == map[]
    {
      this.name := name;
      this.arType := arType;
      this.nestingLevel := nestingLevel;
      members := map[];
    }

    /** The value stored under key; None (undefined) for a key never set. */
    function Get(key: string): (r: Option<V>)
      reads this
      ensures r.Some? <==> key in members
      ensures r.Some? ==> r.value == members[key]
    {
      if key in members then Some(members[key]) else None
    }

    /** Stores value under key, replacing any earlier value; every other key keeps its
        value. */
    method Set(key: string, value: V)
      modifies this
      ensures members == old(members)[key := value]
      ensures Get(key) == Some(value)
      ensures forall k :: k != key ==> Get(k) == old(Get(k))
    {
      members := members[key := value];
    }
  }

  class CallStack<V> {
    /** The records, the top one last. */
    var records: seq<ActivationRecord<V>>

    constructor()
      ensures records == []
    {
      records := [];
    }

    /** The top record; None (undefined) when the stack is empty. */
    function Peek(): (r: Option<ActivationRecord<V>>)
      reads this
      ensures r.None? <==> records == []
      ensures r.Some? ==> r.value == records[|records| - 1]
    {
      if |records| == 0 then None else Some(records[|records| - 1])
    }

    /** Puts ar on top: it is what Peek yields next. */
    method Push(ar: ActivationRecord<V>)
      modifies this
      ensures records == old(records) + [ar]
      ensures Peek() == Some(ar)
    {
      records := records + [ar];
    }

    /** Takes off and returns the top record, leaving the ones below as they were; on an
        empty stack it returns None and changes nothing. */
    method Pop() returns (r: Option<ActivationRecord<V>>)
      modifies this
      ensures r == old(Peek())
      ensures old(records) == [] ==> records == []
      ensures old(records) != [] ==> records == old(records[..|records| - 1])
    {
      if |records| == 0 {
        return None;
      }
      r := Some(records[|records| - 1]);
      records := records[..|records| - 1];
    }
  }
}

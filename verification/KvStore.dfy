/** The in-memory key-value map that committed entries are applied to. Snapshot blobs are the
    maps themselves: encoding and decoding are taken to be lossless. */
module KvStore {
  import opened RaftTypes
  import opened NodeSpec

  class KeyValue {
    var data: Store

    constructor ()
      ensures data == map[]
    {
      data := map[];
    }

    method Put(key: string, value: string)
      modifies this
      ensures data == old(data)[key := value]
    {
      data := data[key := value];
    }

    method Get(key: string) returns (value: Option<string>)
      ensures value == if key in data then Some(data[key]) else None
    {
      if key in data {
        value := Some(data[key]);
      } else {
        value := None;
      }
    }

    /** A copy that later writes to the store do not touch. */
    method Clone() returns (copy: Store)
      ensures copy == data
    {
      copy := CopyOf(data);
    }

    /** Only what is in `m` survives. */
    method Replace(m: Store)
      modifies this
      ensures data == m
    {
      data := CopyOf(m);
    }

    method Snapshot() returns (blob: Store)
      ensures blob == data
    {
      blob := Clone();
    }

    method Restore(blob: Store)
      modifies this
      ensures data == blob
    {
      Replace(blob);
    }

    /** Entries that are empty, cannot be decoded or are not writes change nothing. */
    method OnApply(command: Command)
      modifies this
      ensures forall term :: data == Execute(old(data), Entry(term, command, None))
    {
      if command.Operation? && command.op == "Put" {
        Put(command.key, command.value);
      }
    }
  }

  method CopyOf(m: Store) returns (copy: Store)
    ensures copy == m
  {
    copy := map[];
    var rest := m.Keys;
    while rest != {}
      invariant rest <= m.Keys
      invariant copy.Keys == m.Keys - rest
      invariant forall k :: k in copy ==> copy[k] == m[k]
      decreases rest
    {
      var k :| k in rest;
      copy := copy[k := m[k]];
      rest := rest - {k};
    }
  }

  /** A snapshot restored into any store gives back the map it was taken from, whatever was
      written to the source store in between. */
  method RoundTrip(from: KeyValue, to: KeyValue, key: string, value: string)
    requires from != to
    modifies from, to
    ensures to.data == old(from.data)
    ensures from.data == old(from.data)[key := value]
  {
    var blob := from.Snapshot();
    from.Put(key, value);
    to.Restore(blob);
  }
}

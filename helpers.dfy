/** pkg/unsent/helpers.go: the `to` field of a send request and of a batch entry
    (`SendEmailJSONBody_To`, `SendBatchEmailsJSONBody_To`) is a JSON union kept as
    raw bytes and passed through untouched. Both Go types have the same code; the
    class `RawUnion` models either. */
module Helpers {
  import opened Wrappers

  /** The four bytes of the JSON literal `null`. */
  const Null: seq<byte> := [110, 117, 108, 108]

  class RawUnion {
    /** The stored `json.RawMessage`; `null` is Go's nil slice. */
    var union: array?<byte>

    /** `MakeSendEmailJSONBodyTo` / `MakeBatchEmailTo`, given what `json.Marshal`
        returned: its bytes, or nothing when it failed (the error is dropped). */
    constructor Make(encoded: Result<seq<byte>, string>)
      ensures encoded.Failure? ==> union == null
      ensures encoded.Success? ==> union != null && fresh(union) && union[..] == encoded.value
    {
      if encoded.Success? {
        var bytes := encoded.value;
        union := new byte[|bytes|](i requires 0 <= i < |bytes| => bytes[i]);
      } else {
        union := null;
      }
    }

    /** `MarshalJSON`: `null` for a nil union, the stored bytes otherwise. */
    function Marshal(): (out: seq<byte>)
      reads this, union
      ensures union == null ==> out == Null
      ensures union != null ==> out == union[..]
    {
      if union == null then Null else union[..]
    }

    /** `UnmarshalJSON`: allocate a buffer as long as `data`, copy `data` into it byte by
        byte, keep it, and never fail. Marshalling afterwards gives `data` back. */
    method Unmarshal(data: array<byte>) returns (err: Option<string>)
      modifies this
      ensures err.None?
      ensures union != null && fresh(union)
      ensures union[..] == data[..] && Marshal() == data[..]
    {
      var buf := new byte[data.Length];
      for i := 0 to data.Length
        invariant buf[..i] == data[..i]
      {
        buf[i] := data[i];
      }
      assert buf[..] == buf[..data.Length];
      union := buf;
      err := None;
    }
  }

  /** The stored copy does not share the caller's buffer: writing into `data` after
      `UnmarshalJSON` leaves what the union marshals to unchanged. */
  method CopyIsIndependent(u: RawUnion, data: array<byte>, i: nat, x: byte)
    requires i < data.Length
    modifies u, data
    ensures u.Marshal() == old(data[..])
  {
    var _ := u.Unmarshal(data);
    data[i] := x;
  }
}

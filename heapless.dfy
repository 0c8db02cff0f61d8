/** A fixed-capacity string, as the controller uses for its transient
    buffers: the characters live in an array allocated once, and no operation
    ever grows it. Characters stand for the single ASCII bytes the buffer
    holds. */
module Heapless {

  datatype Option<T> = None | Some(value: T)

  class FixedString {
    const buf: array<char>
    var len: nat

    ghost predicate Valid()
      reads this
    {
      len <= buf.Length
    }

    /** The characters held so far. */
    function Contents(): string
      reads this, buf
      requires Valid()
    {
      buf[..len]
    }

    constructor (capacity: nat)
      ensures Valid() && fresh(buf)
      ensures buf.Length == capacity && Contents() == []
    {
      buf := new char[capacity];
      len := 0;
    }

    /** Append all of `s`, or nothing at all when it does not fit. */
    method PushStr(s: string) returns (ok: bool)
      requires Valid()
      modifies this, buf
      ensures Valid()
      ensures ok <==> old(len) + |s| <= buf.Length
      ensures Contents() == if ok then old(Contents()) + s else old(Contents())
    {
      if len + |s| > buf.Length {
        return false;
      }
      var j := 0;
      while j < |s|
        invariant 0 <= j <= |s|
        invariant buf[..len] == old(buf[..len])
        invariant forall k :: 0 <= k < j ==> buf[len + k] == s[k]
        modifies buf
      {
        buf[len + j] := s[j];
        j := j + 1;
      }
      assert buf[..len + |s|] == old(Contents()) + s;
      len := len + |s|;
      return true;
    }

    /** Remove and return the last character, if there is one. */
    method Pop() returns (c: Option<char>)
      requires Valid()
      modifies this
      ensures Valid()
      ensures old(len) == 0 ==> c == None && Contents() == old(Contents())
      ensures old(len) > 0 ==> c == Some(old(Contents())[old(len) - 1])
      ensures old(len) > 0 ==> Contents() == old(Contents())[..old(len) - 1]
    {
      if len == 0 {
        return None;
      }
      c := Some(buf[len - 1]);
      len := len - 1;
    }
  }
}

/** Storage keys: a namespace and the parts of a key, all but the last prefixed by their length. */
module StorageKey {
  import opened Wrappers

  type byte = b: int | 0 <= b < 256

  const MAX_LENGTH: nat := 0xFFFF

  datatype KeyError = EmptyKey | TooLong

  /** `encode_length`, big-endian, without the check for 16 bits. */
  function EncodeLength(length: nat): seq<byte>
    requires length <= MAX_LENGTH
  {
    [length / 256, length % 256]
  }

  predicate Fits(parts: seq<seq<byte>>) {
    forall i | 0 <= i < |parts| :: |parts[i]| <= MAX_LENGTH
  }

  /** Every part behind its length. */
  function Prefixed(parts: seq<seq<byte>>): seq<byte>
    requires Fits(parts)
  {
    if parts == [] then [] else EncodeLength(|parts[0]|) + parts[0] + Prefixed(parts[1..])
  }

  /** The namespace and all but the last part of a key. */
  function Prefixes(namespace: seq<byte>, key: seq<seq<byte>>): seq<seq<byte>>
    requires key != []
  {
    [namespace] + key[..|key| - 1]
  }

  function Encoded(namespace: seq<byte>, key: seq<seq<byte>>): seq<byte>
    requires key != [] && Fits(Prefixes(namespace, key))
  {
    Prefixed(Prefixes(namespace, key)) + key[|key| - 1]
  }

  function TotalLength(key: seq<seq<byte>>): nat {
    if key == [] then 0 else |key[0]| + 2 + TotalLength(key[1..])
  }

  lemma {:induction false} PrefixedAppend(parts: seq<seq<byte>>, part: seq<byte>)
    requires Fits(parts) && |part| <= MAX_LENGTH
    ensures Fits(parts + [part])
    ensures Prefixed(parts + [part]) == Prefixed(parts) + EncodeLength(|part|) + part
  {
    if parts == [] {
      assert [part][1..] == [];
    } else {
      var head, rest, last := EncodeLength(|parts[0]|) + parts[0], Prefixed(parts[1..]), EncodeLength(|part|) + part;
      PrefixedAppend(parts[1..], part);
      assert (parts + [part])[1..] == parts[1..] + [part];
      assert Prefixed(parts[1..] + [part]) == rest + last;
      assert Prefixed(parts + [part]) == head + (rest + last) == head + rest + last;
      assert head + rest + last == head + rest + EncodeLength(|part|) + part;
    }
  }

  /** The key builder. A part that does not fit its length prefix, or a key without parts, panics. */
  method MapKey(namespace: seq<byte>, key: seq<seq<byte>>) returns (r: Result<seq<byte>, KeyError>)
    ensures r.Ok? <==> key != [] && Fits(Prefixes(namespace, key))
    ensures r.Ok? ==> r.value == Encoded(namespace, key)
  {
    if key == [] {
      return Err(EmptyKey);
    }
    var prefixes := Prefixes(namespace, key);
    var out: seq<byte> := [];
    for i := 0 to |prefixes|
      invariant Fits(prefixes[..i])
      invariant out == Prefixed(prefixes[..i])
    {
      if |prefixes[i]| > MAX_LENGTH {
        return Err(TooLong);
      }
      PrefixedAppend(prefixes[..i], prefixes[i]);
      assert prefixes[..i + 1] == prefixes[..i] + [prefixes[i]];
      out := out + EncodeLength(|prefixes[i]|) + prefixes[i];
    }
    assert prefixes[..|prefixes|] == prefixes;
    r := Ok(out + key[|key| - 1]);
  }

  lemma {:induction false} PrefixedLength(parts: seq<seq<byte>>)
    requires Fits(parts)
    ensures |Prefixed(parts)| == TotalLength(parts)
  {
    if parts != [] {
      PrefixedLength(parts[1..]);
    }
  }

  lemma {:induction false} TotalLengthAppend(parts: seq<seq<byte>>, part: seq<byte>)
    ensures TotalLength(parts + [part]) == TotalLength(parts) + |part| + 2
  {
    if parts == [] {
      assert [part][1..] == [];
    } else {
      TotalLengthAppend(parts[1..], part);
      assert (parts + [part])[1..] == parts[1..] + [part];
    }
  }

  /** The capacity computed up front is exactly the length of the key. */
  lemma CapacityIsLength(namespace: seq<byte>, key: seq<seq<byte>>)
    requires key != [] && Fits(Prefixes(namespace, key))
    ensures |Encoded(namespace, key)| == |namespace| + TotalLength(key)
  {
    var last := key[|key| - 1];
    PrefixedLength(Prefixes(namespace, key));
    assert Prefixes(namespace, key)[1..] == key[..|key| - 1];
    TotalLengthAppend(key[..|key| - 1], last);
    assert key[..|key| - 1] + [last] == key;
  }

  // ----- Reading a key back -----

  /** A length of two bytes, the more significant first. */
  function DecodeLength(bytes: seq<byte>): nat
    requires |bytes| >= 2
  {
    bytes[0] as int * 256 + bytes[1] as int
  }

  /** Takes `n` parts off a key, each behind its length, and leaves the last. */
  function Decode(n: nat, bytes: seq<byte>): Option<(seq<seq<byte>>, seq<byte>)> {
    if n == 0 then Some(([], bytes))
    else if |bytes| < 2 || |bytes| < 2 + DecodeLength(bytes) then None
    else
      var end := 2 + DecodeLength(bytes);
      match Decode(n - 1, bytes[end..])
      case None => None
      case Some((parts, last)) => Some(([bytes[2..end]] + parts, last))
  }

  lemma {:induction false} PrefixedDecodes(parts: seq<seq<byte>>, last: seq<byte>)
    requires Fits(parts)
    ensures Decode(|parts|, Prefixed(parts) + last) == Some((parts, last))
  {
    if parts == [] {
      assert Prefixed(parts) + last == last;
    } else {
      PrefixedDecodes(parts[1..], last);
      assert Prefixed(parts) + last == EncodeLength(|parts[0]|) + parts[0] + (Prefixed(parts[1..]) + last);
      FirstPartDecodes(parts[0], Prefixed(parts[1..]) + last);
      assert [parts[0]] + parts[1..] == parts;
    }
  }

  lemma FirstPartDecodes(part: seq<byte>, rest: seq<byte>)
    requires |part| <= MAX_LENGTH
    ensures var bytes := EncodeLength(|part|) + part + rest;
            DecodeLength(bytes) == |part| && bytes[2..2 + |part|] == part && bytes[2 + |part|..] == rest
  {
  }

  /** A key of known number of parts is read back as its namespace and parts. */
  lemma KeyDecodes(namespace: seq<byte>, key: seq<seq<byte>>)
    requires key != [] && Fits(Prefixes(namespace, key))
    ensures Decode(|key|, Encoded(namespace, key)) == Some(([namespace] + key[..|key| - 1], key[|key| - 1]))
  {
    PrefixedDecodes(Prefixes(namespace, key), key[|key| - 1]);
  }

  lemma {:induction false} PrefixedInjective(a: seq<seq<byte>>, lastA: seq<byte>, b: seq<seq<byte>>, lastB: seq<byte>)
    requires |a| == |b| && Fits(a) && Fits(b)
    requires Prefixed(a) + lastA == Prefixed(b) + lastB
    ensures a == b && lastA == lastB
  {
    if a == [] {
      assert Prefixed(a) + lastA == lastA && Prefixed(b) + lastB == lastB;
    } else {
      var left, right := Prefixed(a) + lastA, Prefixed(b) + lastB;
      var restA, restB := Prefixed(a[1..]) + lastA, Prefixed(b[1..]) + lastB;
      assert left == EncodeLength(|a[0]|) + (a[0] + restA);
      assert right == EncodeLength(|b[0]|) + (b[0] + restB);
      assert left[0] == right[0] && left[1] == right[1];
      assert |a[0]| == |b[0]|;
      assert a[0] + restA == left[2..] && b[0] + restB == right[2..];
      assert a[0] == left[2..][..|a[0]|] && b[0] == right[2..][..|b[0]|];
      assert restA == left[2..][|a[0]|..] && restB == right[2..][|b[0]|..];
      PrefixedInjective(a[1..], lastA, b[1..], lastB);
      assert a == [a[0]] + a[1..] && b == [b[0]] + b[1..];
    }
  }

  /** Keys of the same number of parts never collide, across namespaces either. */
  lemma MapKeyInjective(namespace: seq<byte>, key: seq<seq<byte>>, namespace': seq<byte>, key': seq<seq<byte>>)
    requires key != [] && Fits(Prefixes(namespace, key))
    requires key' != [] && Fits(Prefixes(namespace', key'))
    requires |key| == |key'|
    requires Encoded(namespace, key) == Encoded(namespace', key')
    ensures namespace == namespace' && key == key'
  {
    var n := |key| - 1;
    var a, b := Prefixes(namespace, key), Prefixes(namespace', key');
    PrefixedInjective(a, key[n], b, key'[n]);
    assert namespace == a[0] && namespace' == b[0];
    assert key[..n] == a[1..] && key'[..n] == b[1..];
    assert key == key[..n] + [key[n]] && key' == key'[..n] + [key'[n]];
  }

  /** With different numbers of parts they can: any two-part key is also the key of one part. */
  lemma PartsCanCollide(namespace: seq<byte>, first: seq<byte>, last: seq<byte>)
    requires |namespace| <= MAX_LENGTH && |first| <= MAX_LENGTH
    ensures var joined := EncodeLength(|first|) + first + last;
            Encoded(namespace, [first, last]) == Encoded(namespace, [joined])
  {
    var joined := EncodeLength(|first|) + first + last;
    assert Prefixes(namespace, [first, last]) == [namespace, first];
    assert Prefixes(namespace, [joined]) == [namespace];
    assert [namespace, first][1..] == [first] && [first][1..] == [] && [namespace][1..] == [];
    var head := EncodeLength(|namespace|) + namespace;
    assert Prefixed([namespace]) == head;
    assert Prefixed([first]) == EncodeLength(|first|) + first;
    assert Prefixed([namespace, first]) == head + (EncodeLength(|first|) + first);
  }
}

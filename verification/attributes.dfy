/** The attribute list a start tag carries: `esi_strndup`, `esi_attribute_new` and
    `esi_attribute_copy`.  A list of `ESIAttribute` nodes linked through `next` is a sequence
    in append order; each name and value is the NUL-terminated copy the source allocates. */
module Attributes {
  import opened Bytes

  /** One `ESIAttribute`: independently allocated, NUL-terminated name and value. */
  datatype Attribute = Attribute(name: seq<Byte>, value: seq<Byte>)

  /** A byte string holding at least one NUL, as every C string does. */
  predicate IsCString(s: seq<Byte>) {
    NUL in s
  }

  /** A C string whose only NUL is its terminator. */
  predicate IsPlainCString(s: seq<Byte>) {
    |s| > 0 && s[|s| - 1] == NUL && NUL !in s[..|s| - 1]
  }

  /** C `strlen`: the number of bytes before the first NUL. */
  function StrLen(s: seq<Byte>): (n: nat)
    requires IsCString(s)
    ensures n < |s| && s[n] == NUL
    ensures forall j :: 0 <= j < n ==> s[j] != NUL
  {
    if s[0] == NUL then 0 else StrLen(s[1..]) + 1
  }

  /** `esi_strndup(str, len)`: the first `len` bytes of `str` followed by a NUL. */
  function Strndup(str: seq<Byte>, len: nat): (r: seq<Byte>)
    requires len <= |str|
    ensures |r| == len + 1 && r[len] == NUL
  {
    str[..len] + [NUL]
  }

  /** The copy begins with the `len` bytes it was given. */
  lemma StrndupKeepsBytes(str: seq<Byte>, len: nat)
    requires len <= |str|
    ensures Strndup(str, len)[..len] == str[..len]
  {
    assert (str[..len] + [NUL])[..len] == str[..len];
  }

  /** When the copied bytes hold no NUL, the copy is a C string of length `len` whose only NUL
      is its terminator. */
  lemma StrndupOfPlain(str: seq<Byte>, len: nat)
    requires len <= |str| && NUL !in str[..len]
    ensures IsPlainCString(Strndup(str, len)) && StrLen(Strndup(str, len)) == len
  {
    var r := Strndup(str, len);
    assert r == str[..len] + [NUL] && r[..|r| - 1] == str[..len];
    StrLenOfTerminated(str[..len]);
  }

  /** `esi_attribute_new(name, name_length, value, value_length)`; `next` is null, which in a
      sequence means the attribute is appended on its own. */
  function AttributeNew(name: seq<Byte>, nameLength: nat, value: seq<Byte>, valueLength: nat): (a: Attribute)
    requires nameLength <= |name| && valueLength <= |value|
    ensures |a.name| == nameLength + 1 && a.name[nameLength] == NUL
    ensures |a.value| == valueLength + 1 && a.value[valueLength] == NUL
  {
    Attribute(Strndup(name, nameLength), Strndup(value, valueLength))
  }

  /** The new attribute's name and value begin with the bytes they were given. */
  lemma AttributeNewKeepsBytes(name: seq<Byte>, nameLength: nat, value: seq<Byte>, valueLength: nat)
    requires nameLength <= |name| && valueLength <= |value|
    ensures AttributeNew(name, nameLength, value, valueLength).name[..nameLength] == name[..nameLength]
    ensures AttributeNew(name, nameLength, value, valueLength).value[..valueLength] == value[..valueLength]
  {
    StrndupKeepsBytes(name, nameLength);
    StrndupKeepsBytes(value, valueLength);
  }

  /** A name or value whose given bytes hold no NUL keeps the given length as its `strlen`. */
  lemma AttributeNewLengths(name: seq<Byte>, nameLength: nat, value: seq<Byte>, valueLength: nat)
    requires nameLength <= |name| && valueLength <= |value|
    ensures NUL !in name[..nameLength] ==> StrLen(AttributeNew(name, nameLength, value, valueLength).name) == nameLength
    ensures NUL !in value[..valueLength] ==> StrLen(AttributeNew(name, nameLength, value, valueLength).value) == valueLength
  {
    if NUL !in name[..nameLength] {
      StrndupOfPlain(name, nameLength);
    }
    if NUL !in value[..valueLength] {
      StrndupOfPlain(value, valueLength);
    }
  }

  /** Built from whole strings, an attribute holds each string followed by its terminator. */
  lemma AttributeNewOfWhole(name: seq<Byte>, nameLength: nat, value: seq<Byte>, valueLength: nat)
    requires nameLength == |name| && valueLength == |value|
    ensures AttributeNew(name, nameLength, value, valueLength) == Attribute(name + [NUL], value + [NUL])
  {
    assert name[..nameLength] == name && value[..valueLength] == value;
  }

  /** Both strings of an attribute are C strings. */
  predicate WellFormed(a: Attribute) {
    IsCString(a.name) && IsCString(a.value)
  }

  /** What `esi_attribute_copy` makes of one node: a new attribute built from `strlen` of each string. */
  function CopyOne(a: Attribute): (c: Attribute)
    requires WellFormed(a)
    ensures |c.name| == StrLen(a.name) + 1 && |c.value| == StrLen(a.value) + 1
  {
    AttributeNew(a.name, StrLen(a.name), a.value, StrLen(a.value))
  }

  /** A copy's name and value are C strings whose only NUL is the terminator. */
  lemma CopyOneIsPlain(a: Attribute)
    requires WellFormed(a)
    ensures IsPlainCString(CopyOne(a).name) && IsPlainCString(CopyOne(a).value)
  {
    assert NUL !in a.name[..StrLen(a.name)] && NUL !in a.value[..StrLen(a.value)];
    StrndupOfPlain(a.name, StrLen(a.name));
    StrndupOfPlain(a.value, StrLen(a.value));
  }

  /** A copy keeps each string's C-string contents: everything up to the first NUL. */
  lemma CopyOneKeepsStrings(a: Attribute)
    requires WellFormed(a)
    ensures StrLen(CopyOne(a).name) == StrLen(a.name)
    ensures CopyOne(a).name[..StrLen(a.name)] == a.name[..StrLen(a.name)]
    ensures StrLen(CopyOne(a).value) == StrLen(a.value)
    ensures CopyOne(a).value[..StrLen(a.value)] == a.value[..StrLen(a.value)]
  {
    var c := CopyOne(a);
    StrLenOfTerminated(a.name[..StrLen(a.name)]);
    StrLenOfTerminated(a.value[..StrLen(a.value)]);
    assert c.name == a.name[..StrLen(a.name)] + [NUL];
    assert c.value == a.value[..StrLen(a.value)] + [NUL];
  }

  /** `strlen` of a NUL-free prefix followed by a NUL is the prefix's length. */
  lemma {:induction false} StrLenOfTerminated(s: seq<Byte>)
    requires NUL !in s
    ensures IsCString(s + [NUL]) && StrLen(s + [NUL]) == |s|
  {
    if s != [] {
      assert (s + [NUL])[1..] == s[1..] + [NUL];
      StrLenOfTerminated(s[1..]);
    }
  }

  /** For an attribute whose strings hold no NUL but their terminators, which is every attribute
      the scanner builds from NUL-free text, the copy is equal to the original. */
  lemma CopyOneOfPlain(a: Attribute)
    requires IsPlainCString(a.name) && IsPlainCString(a.value)
    ensures CopyOne(a) == a
  {
    var n, v := a.name[..|a.name| - 1], a.value[..|a.value| - 1];
    assert a.name == n + [NUL] && a.value == v + [NUL];
    StrLenOfTerminated(n);
    StrLenOfTerminated(v);
  }

  /** `esi_attribute_copy(attribute)`: null for a null list, otherwise a new list of the same
      length whose nodes are copies of the original's nodes, in the same order. */
  method AttributeCopy(attribute: seq<Attribute>) returns (head: seq<Attribute>)
    requires forall i :: 0 <= i < |attribute| ==> WellFormed(attribute[i])
    ensures |head| == |attribute|
    ensures forall i :: 0 <= i < |attribute| ==> head[i] == CopyOne(attribute[i])
  {
    head := [];
    if |attribute| == 0 {
      return;
    }
    var k := 0;
    while k < |attribute|
      invariant 0 <= k <= |attribute| && |head| == k
      invariant forall i :: 0 <= i < k ==> head[i] == CopyOne(attribute[i])
    {
      var next := CopyOne(attribute[k]);
      head := head + [next];
      k := k + 1;
    }
  }
}

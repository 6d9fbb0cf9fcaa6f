/** The parts of the nginx filter module that decide what the parser's events do: which
    responses are filtered, how the location configuration is merged, how start and end tags
    build and unwind the list of open tags, and where output goes. */
module EsiFilter {
  import opened Bytes
  import opened EsiTag

  /** C `strncmp(s1, s2, n) == 0` for a NUL-terminated `s1`: the first `n` bytes agree, or they
      agree up to and including a NUL in `s1`.  Only the bytes compared are read from `s2`. */
  function StrNCmpZero(s1: seq<Byte>, s2: seq<Byte>, n: nat): (r: bool)
    requires NUL in s1 && n <= |s2|
    ensures n <= |s1| && (forall j :: 0 <= j < n ==> s1[j] == s2[j]) ==> r
    ensures r && (forall j :: 0 <= j < n ==> s2[j] != NUL) ==> n <= |s1| && forall j :: 0 <= j < n ==> s1[j] == s2[j]
    decreases n
  {
    if n == 0 then true
    else if s1[0] != s2[0] then false
    else if s1[0] == NUL then true
    else
      var t1, t2 := s1[1..], s2[1..];
      assert NUL in t1;
      var r' := StrNCmpZero(t1, t2, n - 1);
      assert forall j :: 0 < j < n && j < |s1| ==> s1[j] == t1[j - 1] && s2[j] == t2[j - 1];
      r'
  }

  /** Against a literal, `strncmp(literal, name, length)` is zero exactly when the name, which
      holds no NUL, is a prefix of the literal: every abbreviation of a tag name, the empty one
      included, passes. */
  lemma {:induction false} StrNCmpZeroIsPrefix(lit: seq<Byte>, name: seq<Byte>)
    requires NUL !in lit && NUL !in name
    ensures StrNCmpZero(lit + [NUL], name, |name|) <==> name <= lit
    decreases |name|
  {
    if name != [] {
      if lit == [] {
        assert (lit + [NUL])[0] == NUL != name[0];
      } else {
        assert (lit + [NUL])[1..] == lit[1..] + [NUL];
        assert NUL !in lit[1..] && NUL !in name[1..];
        StrNCmpZeroIsPrefix(lit[1..], name[1..]);
        assert name <= lit <==> name[0] == lit[0] && name[1..] <= lit[1..];
      }
    }
  }

  /** The tag types in the order `esi_start_tag` and `esi_end_tag` try their names. */
  const Named: seq<TagType> := [Try, Attempt, Except, Include, Invalidate, Vars, Remove]

  /** The bytes of a tag type's name, as the source's string literals hold them. */
  function NameBytes(t: TagType): (r: seq<Byte>)
    ensures NUL !in r
  {
    match t
    case Try => [101, 115, 105, 58, 116, 114, 121]  // "esi:try"
    case Attempt => [101, 115, 105, 58, 97, 116, 116, 101, 109, 112, 116]  // "esi:attempt"
    case Except => [101, 115, 105, 58, 101, 120, 99, 101, 112, 116]  // "esi:except"
    case Include => [101, 115, 105, 58, 105, 110, 99, 108, 117, 100, 101]  // "esi:include"
    case Invalidate => [101, 115, 105, 58, 105, 110, 118, 97, 108, 105, 100, 97, 116, 101]  // "esi:invalidate"
    case Vars => [101, 115, 105, 58, 118, 97, 114, 115]  // "esi:vars"
    case Remove => [101, 115, 105, 58, 114, 101, 109, 111, 118, 101]  // "esi:remove"
    case NoType => []
  }

  /** `!strncmp("esi:...", name_start, length)` for the name of `t`. */
  predicate Names(t: TagType, name: seq<Byte>) {
    StrNCmpZero(NameBytes(t) + [NUL], name, |name|)
  }

  /** The chain of comparisons that opens `esi_start_tag` and `esi_end_tag`: the first tag type,
      from position `i` of `Named` on, whose name passes, or none. */
  function RecogniseFrom(name: seq<Byte>, i: nat): (r: Option<TagType>)
    requires i <= |Named|
    ensures r.Some? ==> Names(r.value, name)
    decreases |Named| - i
  {
    if i == |Named| then None
    else if Names(Named[i], name) then Some(Named[i])
    else RecogniseFrom(name, i + 1)
  }

  /** The type a tag name selects, if any: for a name without NUL, the first type in the order
      tried of whose name it is a prefix. */
  function Recognise(name: seq<Byte>): (r: Option<TagType>)
    ensures NUL !in name ==> r == FirstPrefixed(name, 0)
  {
    if NUL !in name then RecognisePrefix(name, 0); RecogniseFrom(name, 0) else RecogniseFrom(name, 0)
  }

  /** The first type from position `i` of `Named` on whose name is prefixed by `name`: an
      independent statement of which tag a name opens or closes. */
  function FirstPrefixed(name: seq<Byte>, i: nat): (r: Option<TagType>)
    requires i <= |Named|
    decreases |Named| - i
  {
    if i == |Named| then None
    else if name <= NameBytes(Named[i]) then Some(Named[i])
    else FirstPrefixed(name, i + 1)
  }

  /** For a name without NUL, each comparison passes exactly when the name is a prefix of the
      tag name. */
  lemma NamesIsPrefix(t: TagType, name: seq<Byte>)
    requires NUL !in name
    ensures Names(t, name) <==> name <= NameBytes(t)
  {
    StrNCmpZeroIsPrefix(NameBytes(t), name);
  }

  /** A name without NUL is recognised as the first type, in the order tried, whose name it is a
      prefix of, and is not recognised when it is a prefix of none. */
  lemma {:induction false} RecognisePrefix(name: seq<Byte>, i: nat)
    requires NUL !in name && i <= |Named|
    ensures RecogniseFrom(name, i) == FirstPrefixed(name, i)
    decreases |Named| - i
  {
    if i < |Named| {
      NamesIsPrefix(Named[i], name);
      RecognisePrefix(name, i + 1);
    }
  }

  /** Two strings that differ at a position both have are not prefixes of each other. */
  lemma NotPrefix(a: seq<Byte>, b: seq<Byte>, k: int)
    requires 0 <= k < |a| && k < |b| && a[k] != b[k]
    ensures !(a <= b)
  {
  }

  /** The search finds position `k` when the name prefixes the name there and none before it. */
  lemma {:induction false} FirstPrefixedAt(name: seq<Byte>, i: nat, k: nat)
    requires i <= k < |Named| && name <= NameBytes(Named[k])
    requires forall m :: i <= m < k ==> !(name <= NameBytes(Named[m]))
    ensures FirstPrefixed(name, i) == Some(Named[k])
    decreases k - i
  {
    if i < k {
      FirstPrefixedAt(name, i + 1, k);
    }
  }

  /** No full tag name is a prefix of a name tried before it: each differs from the earlier
      ones in the fifth byte, or, for `esi:invalidate` after `esi:include`, in the seventh. */
  lemma NamesDiffer(k: int, m: int)
    requires 0 <= m < k < |Named|
    ensures !(NameBytes(Named[k]) <= NameBytes(Named[m]))
  {
    var name, other := NameBytes(Named[k]), NameBytes(Named[m]);
    if k == 4 && m == 3 {
      NotPrefix(name, other, 6);
    } else {
      NotPrefix(name, other, 4);
    }
  }

  /** Each full tag name is the first, in the order tried, that it is a prefix of. */
  lemma OwnNameFirst(t: TagType)
    requires t in Named
    ensures FirstPrefixed(NameBytes(t), 0) == Some(t)
  {
    var k :| 0 <= k < |Named| && Named[k] == t;
    forall m | 0 <= m < k
      ensures !(NameBytes(t) <= NameBytes(Named[m]))
    {
      NamesDiffer(k, m);
    }
    FirstPrefixedAt(NameBytes(t), 0, k);
  }

  /** Every full tag name is recognised as its own type. */
  lemma RecogniseNames(t: TagType)
    requires t in Named
    ensures Recognise(NameBytes(t)) == Some(t)
  {
    OwnNameFirst(t);
    RecognisePrefix(NameBytes(t), 0);
  }

  /** Abbreviations pass too: the empty name opens an `esi:try`, and `esi:in` an `esi:include`. */
  lemma RecogniseAbbreviations()
    ensures Recognise([]) == Some(Try)
    ensures Recognise([101, 115, 105, 58, 105, 110]) == Some(Include)  // "esi:in"
  {
    var esiIn: seq<Byte> := [101, 115, 105, 58, 105, 110];
    RecognisePrefix([], 0);
    FirstPrefixedAt([], 0, 0);
    RecognisePrefix(esiIn, 0);
    NotPrefix(esiIn, NameBytes(Try), 4);
    NotPrefix(esiIn, NameBytes(Attempt), 4);
    NotPrefix(esiIn, NameBytes(Except), 4);
    FirstPrefixedAt(esiIn, 0, 3);
  }

  /** The open tags after `esi_start_tag`: a recognised name adds a tag of its type at the end. */
  function Opened(kinds: seq<TagType>, name: seq<Byte>): seq<TagType> {
    match Recognise(name)
    case None => kinds
    case Some(k) => kinds + [k]
  }

  /** The open tags after `esi_end_tag`: with no open tag or an unrecognised name nothing
      changes; when the root tag has the name's type, every tag is closed; otherwise the list
      is cut before the first later tag of that type, if there is one. */
  function Closed(kinds: seq<TagType>, name: seq<Byte>): seq<TagType> {
    if kinds == [] then kinds
    else
      match Recognise(name)
      case None => kinds
      case Some(k) => if kinds[0] == k then [] else kinds[..Find(kinds, k, 1)]
  }

  /** An end tag only ever closes tags at the end of the list, and after a recognised end tag
      no open tag has its type. */
  lemma ClosedTruncates(kinds: seq<TagType>, name: seq<Byte>)
    ensures Closed(kinds, name) <= kinds
    ensures Recognise(name).Some? ==> Recognise(name).value !in Closed(kinds, name)
  {
  }

  /** A start tag followed by the matching end tag leaves the open tags as they were, when no
      tag of that type was open before. */
  lemma OpenThenClose(kinds: seq<TagType>, name: seq<Byte>)
    requires Recognise(name).Some? && Recognise(name).value !in kinds
    ensures Closed(Opened(kinds, name), name) == kinds
  {
    var k := Recognise(name).value;
    var grown := kinds + [k];
    assert Opened(kinds, name) == grown;
    if kinds != [] {
      var j := Find(grown, k, 1);
      assert grown[0] == kinds[0] != k;
      assert grown[|kinds|] == k;
      assert j == |kinds|;
      assert Closed(grown, name) == grown[..j];
      assert grown[..|kinds|] == kinds;
    }
  }

  /** A second identical end tag changes nothing. */
  lemma CloseTwice(kinds: seq<TagType>, name: seq<Byte>)
    ensures Closed(Closed(kinds, name), name) == Closed(kinds, name)
  {
    var once := Closed(kinds, name);
    if once != [] && once != kinds {
      var k := Recognise(name).value;
      var j := Find(kinds, k, 1);
      assert once == kinds[..j] && once[0] == kinds[0];
      assert Find(once, k, 1) == j;
    }
  }

  /** `ngx_http_esi_ctx_t`: the open tags (`root_tag` and the list after it), the tag output goes
      to (`open_tag`), the buffers handed on (`chain`) and their count (`dcount`). */
  class EsiCtx {
    var rootTag: ESITag?
    var openTag: ESITag?
    ghost var tags: seq<ESITag>
    var chain: seq<seq<Byte>>
    var dcount: int

    /** The open tags form the list starting at the root tag, and `dcount` counts the buffers. */
    ghost predicate Valid()
      reads this, (set n | n in tags)`next
    {
      List(rootTag, tags) && dcount == |chain|
    }

    /** The context `ngx_http_esi_header_filter` makes for a response it filters: no tags, an
        empty chain and a count of zero. */
    constructor Found()
      ensures Valid() && rootTag == null && openTag == null && tags == [] && chain == []
    {
      rootTag, openTag := null, null;
      tags := [];
      chain := [];
      dcount := 0;
    }

    /** The walk of `esi_start_tag` to the last open tag and the link to the new one. */
    method Append(tag: ESITag)
      requires Valid() && rootTag != null && tag !in tags && tag.next == null
      modifies this`tags, (set n | n in tags)`next
      ensures Valid() && tags == old(tags) + [tag]
    {
      var last := rootTag;
      ghost var i := 0;
      while last.next != null
        invariant 0 <= i < |tags| && last == tags[i] && List(rootTag, tags)
        decreases |tags| - i
      {
        last := last.next;
        i := i + 1;
      }
      Link(last, tag, tags);
      tags := tags + [tag];
    }

    /** `esi_start_tag`: an unrecognised name changes nothing; otherwise a new tag of the
        recognised type is added after the last open tag, or becomes the root tag when none is
        open, and becomes the open tag. */
    method StartTag(name: seq<Byte>)
      requires Valid()
      modifies this`rootTag, this`openTag, this`tags, (set n | n in tags)`next
      ensures Valid() && Kinds(tags) == Opened(Kinds(old(tags)), name)
      ensures Recognise(name).None? ==> tags == old(tags) && rootTag == old(rootTag) && openTag == old(openTag)
      ensures Recognise(name).Some? ==> && tags[..|old(tags)|] == old(tags) && |tags| == |old(tags)| + 1
                                        && fresh(openTag) && openTag == tags[|tags| - 1] && openTag.depth == 0
    {
      var kind := Recognise(name);
      if kind.None? {
        return;
      }
      var tag := new ESITag.New(kind.value);
      if rootTag != null {
        Append(tag);
      } else {
        rootTag := tag;
        tags := [tag];
      }
      openTag := tag;
    }

    /** `esi_end_tag`: with no root tag or an unrecognised name nothing changes.  When the root
        tag has the name's type it is closed with every tag after it and both pointers become
        null.  Otherwise `esi_tag_close_children` closes the first later tag of that type and
        the rest of the list; its result, which `ngx_esi_tag.c` defines as `void`, becomes the
        open tag and is the caller's `unspecified`. */
    method EndTag(name: seq<Byte>, unspecified: ESITag?)
      requires Valid()
      modifies this`rootTag, this`openTag, this`tags, (set n | n in tags)`next
      ensures Valid() && Kinds(tags) == Closed(Kinds(old(tags)), name)
      ensures old(rootTag) == null || Recognise(name).None? ==> tags == old(tags) && rootTag == old(rootTag) && openTag == old(openTag)
      ensures old(rootTag) != null && Recognise(name).Some? ==>
                if old(rootTag.kind) == Recognise(name).value then rootTag == null && openTag == null
                else rootTag == old(rootTag) && openTag == unspecified && tags <= old(tags)
    {
      var kind := Recognise(name);
      if rootTag == null || kind.None? {
        return;
      }
      if rootTag.kind == kind.value {
        CloseRoot();
      } else {
        CloseLater(kind.value, unspecified);
      }
    }

    /** The end tag names the root tag's type: `esi_tag_close(root_tag)`, then both pointers
        become null. */
    method CloseRoot()
      requires Valid() && rootTag != null
      modifies this`rootTag, this`openTag, this`tags
      ensures Valid() && rootTag == null && openTag == null && tags == []
    {
      var line, freed := Close(rootTag, tags);
      rootTag, openTag := null, null;
      tags := [];
    }

    /** The end tag names another type: `open_tag = esi_tag_close_children(root_tag, type)`. */
    method CloseLater(kind: TagType, unspecified: ESITag?)
      requires Valid() && rootTag != null
      modifies this`openTag, this`tags, (set n | n in tags)`next
      ensures Valid() && openTag == unspecified
      ensures tags == old(tags)[..Find(Kinds(old(tags)), kind, 1)]
      ensures Kinds(tags) == Kinds(old(tags))[..Find(Kinds(old(tags)), kind, 1)]
    {
      ghost var nodes := tags;
      var freed, j := CloseChildren(rootTag, kind, nodes);
      SetTags(nodes[..j], unspecified);
    }

    /** Records the open tags `t`, already linked from the root tag, and the open tag. */
    method SetTags(ghost t: seq<ESITag>, open: ESITag?)
      requires List(rootTag, t) && dcount == |chain|
      modifies this`tags, this`openTag
      ensures Valid() && tags == t && openTag == open
    {
      tags := t;
      openTag := open;
    }

    /** `esi_output`: while a tag is open, the bytes go to `esi_tag_buffer` for that tag, whose
        result (`tagBuffer`) `ngx_esi_tag.c` does not define; otherwise they are copied into a
        new buffer, which fails when the pool is exhausted (`poolOk` false).  A buffer produced
        is counted and appended to the chain; the open tags are untouched. */
    method Output(data: seq<Byte>, tagBuffer: Option<seq<Byte>>, poolOk: bool)
      requires Valid()
      modifies this`chain, this`dcount
      ensures Valid()
      ensures var buf := if rootTag != null && openTag != null then tagBuffer else if poolOk then Some(data) else None;
              chain == old(chain) + (if buf.Some? then [buf.value] else [])
    {
      var buf: Option<seq<Byte>>;
      if rootTag != null && openTag != null {
        buf := tagBuffer;
      } else {
        buf := if poolOk then Some(data) else None;
      }
      if buf.Some? {
        dcount := dcount + 1;
        chain := chain + [buf.value];
      }
    }
  }

  /** C `tolower` of `ngx_strncasecmp`: only `A`..`Z` change. */
  function Lower(b: Byte): Byte {
    if 65 <= b <= 90 then b + 32 else b
  }

  /** `ngx_strncasecmp(s1, s2, n) == 0`: the first `n` bytes agree up to case, or agree up to
      case up to and including a common NUL. */
  function StrNCaseCmpZero(s1: seq<Byte>, s2: seq<Byte>, n: nat): (r: bool)
    requires n <= |s1| && n <= |s2|
    ensures (forall j :: 0 <= j < n ==> Lower(s1[j]) == Lower(s2[j])) ==> r
    ensures r && (forall j :: 0 <= j < n ==> s2[j] != NUL) ==> forall j :: 0 <= j < n ==> Lower(s1[j]) == Lower(s2[j])
    decreases n
  {
    if n == 0 then true
    else if Lower(s1[0]) != Lower(s2[0]) then false
    else if Lower(s1[0]) == NUL then true
    else
      var t1, t2 := s1[1..], s2[1..];
      var r' := StrNCaseCmpZero(t1, t2, n - 1);
      assert forall j :: 0 < j < n ==> s1[j] == t1[j - 1] && s2[j] == t2[j - 1];
      r'
  }

  /** Every byte of a string lowered. */
  function LowerAll(s: seq<Byte>): (r: seq<Byte>)
    ensures |r| == |s| && forall i :: 0 <= i < |s| ==> r[i] == Lower(s[i])
  {
    if s == [] then [] else [Lower(s[0])] + LowerAll(s[1..])
  }

  /** The test of `ngx_http_esi_header_filter` for one configured type: the content type is at
      least as long as the type and begins with it, ignoring case. */
  predicate TypeMatches(contentType: seq<Byte>, t: seq<Byte>): (r: bool)
    ensures NUL !in t ==> (r <==> |contentType| >= |t| && forall j :: 0 <= j < |t| ==> Lower(contentType[j]) == Lower(t[j]))
  {
    |contentType| >= |t| && StrNCaseCmpZero(contentType, t, |t|)
  }

  /** For a type without NUL, the test is a case-insensitive prefix test, so parameters after the
      media type (`text/html; charset=utf-8`) do not stop a match. */
  lemma {:induction false} TypeMatchesIsPrefix(contentType: seq<Byte>, t: seq<Byte>)
    requires NUL !in t
    ensures TypeMatches(contentType, t) <==> LowerAll(t) <= LowerAll(contentType)
    decreases |t|
  {
    if |contentType| >= |t| && t != [] {
      assert NUL !in t[1..];
      TypeMatchesIsPrefix(contentType[1..], t[1..]);
      assert Lower(t[0]) != NUL;
      PrefixCons(LowerAll(t), LowerAll(contentType));
    }
  }

  /** A non-empty string is a prefix of another when the first bytes agree and the rest is a prefix. */
  lemma PrefixCons(a: seq<Byte>, b: seq<Byte>)
    requires a != [] && b != []
    ensures a <= b <==> a[0] == b[0] && a[1..] <= b[1..]
  {
  }

  /** `ngx_http_esi_loc_conf_t`; `None` is `NGX_CONF_UNSET`, `NGX_CONF_UNSET_SIZE` or a null
      `types` array. */
  datatype LocConf = LocConf(
    enable: Option<int>,
    silentErrors: Option<int>,
    minFileChunk: Option<nat>,
    maxDepth: Option<nat>,
    types: Option<seq<seq<Byte>>>)

  /** `ngx_http_esi_create_loc_conf`: nothing set. */
  function CreateLocConf(): (c: LocConf)
    ensures c.enable.None? && c.silentErrors.None? && c.minFileChunk.None? && c.maxDepth.None? && c.types.None?
  {
    LocConf(None, None, None, None, None)
  }

  /** `ngx_conf_merge_value` and `ngx_conf_merge_size_value`: the child's own setting, else the
      parent's, else the default. */
  function Merge<T>(conf: Option<T>, prev: Option<T>, default: T): (r: Option<T>)
    ensures r.Some?
  {
    if conf.Some? then conf else if prev.Some? then prev else Some(default)
  }

  /** The bytes of `text/html`, the one type filtered when none is configured. */
  function TextHtml(): (r: seq<Byte>)
    ensures |r| == 9 && NUL !in r
  {
    [116, 101, 120, 116, 47, 104, 116, 109, 108]
  }

  /** `ngx_http_esi_merge_loc_conf`. */
  function MergeLocConf(prev: LocConf, conf: LocConf): (r: LocConf)
    ensures Complete(r)
  {
    LocConf(Merge(conf.enable, prev.enable, 0),
            Merge(conf.silentErrors, prev.silentErrors, 0),
            Merge(conf.minFileChunk, prev.minFileChunk, 1024),
            Merge(conf.maxDepth, prev.maxDepth, 256),
            Merge(conf.types, prev.types, [TextHtml()]))
  }

  /** Every setting present, as after merging. */
  predicate Complete(c: LocConf) {
    c.enable.Some? && c.silentErrors.Some? && c.minFileChunk.Some? && c.maxDepth.Some? && c.types.Some?
  }

  /** Where nothing is configured, the filter is off, errors are not silenced, the chunk size is
      1024, the depth 256, and only `text/html` is filtered. */
  lemma MergeDefaults()
    ensures MergeLocConf(CreateLocConf(), CreateLocConf())
         == LocConf(Some(0), Some(0), Some(1024), Some(256), Some([TextHtml()]))
  {
  }

  /** A location that configures nothing inherits its merged parent unchanged, and a setting the
      location makes itself is never overridden by the parent. */
  lemma MergeInherits(prev: LocConf, conf: LocConf)
    ensures Complete(prev) ==> MergeLocConf(prev, CreateLocConf()) == prev
    ensures conf.enable.Some? ==> MergeLocConf(prev, conf).enable == conf.enable
    ensures conf.types.Some? ==> MergeLocConf(prev, conf).types == conf.types
    ensures Complete(conf) ==> MergeLocConf(prev, conf) == conf
  {
  }

  /** Merging again with the same parent changes nothing. */
  lemma MergeIdempotent(prev: LocConf, conf: LocConf)
    ensures MergeLocConf(prev, MergeLocConf(prev, conf)) == MergeLocConf(prev, conf)
  {
  }

  /** `ngx_http_esi_header_filter`'s decision: a response is filtered when the filter is on, the
      response has a content type and a length other than zero, and one of the configured types
      matches the content type; the types are tried in order. */
  method Selects(conf: LocConf, contentType: seq<Byte>, contentLength: int) returns (found: bool)
    requires Complete(conf)
    ensures found <==> && conf.enable.value != 0 && |contentType| != 0 && contentLength != 0
                       && exists i :: 0 <= i < |conf.types.value| && TypeMatches(contentType, conf.types.value[i])
  {
    if conf.enable.value == 0 || |contentType| == 0 || contentLength == 0 {
      return false;
    }
    var types := conf.types.value;
    var i := 0;
    while i < |types|
      invariant 0 <= i <= |types|
      invariant forall j :: 0 <= j < i ==> !TypeMatches(contentType, types[j])
    {
      if |contentType| >= |types[i]| && StrNCaseCmpZero(contentType, types[i], |types[i]|) {
        return true;
      }
      i := i + 1;
    }
    return false;
  }
}

/**
The mount's cache (fuse/cache.go): attributes and directory listings that
expire, and file contents keyed by the server's version.  `Contents` is the
value of a `Cache` object; every method is tied to the function of that value
it computes.
*/
module VfsCache {
  import opened Options
  import opened FileOps
  import opened Vfs

  datatype Entry = Entry(name: string, kind: Kind)

  datatype AttrEntry = AttrEntry(node: Node, exp: nat)
  datatype DentryEntry = DentryEntry(entries: seq<Entry>, exp: nat)
  datatype ContentEntry = ContentEntry(version: nat, data: Content)

  datatype Contents = Contents(
    attrTTL: nat,
    dentryTTL: nat,
    attrs: map<Path, AttrEntry>,
    dentries: map<Path, DentryEntry>,
    content: map<Path, ContentEntry>)

  function EmptyContents(attrTTL: nat, dentryTTL: nat): Contents {
    Contents(attrTTL, dentryTTL, map[], map[], map[])
  }

  /** The unexpired attributes of `p`, if any. */
  function LiveAttr(c: Contents, p: Path, now: nat): Option<Node> {
    if p in c.attrs && now <= c.attrs[p].exp then Some(c.attrs[p].node) else None
  }

  function LiveDentries(c: Contents, p: Path, now: nat): Option<seq<Entry>> {
    if p in c.dentries && now <= c.dentries[p].exp then Some(c.dentries[p].entries) else None
  }

  /** Looking attributes up drops an expired entry. */
  function AfterGetAttr(c: Contents, p: Path, now: nat): Contents {
    if LiveAttr(c, p, now).None? then c.(attrs := c.attrs - {p}) else c
  }

  function AfterGetDentries(c: Contents, p: Path, now: nat): Contents {
    if LiveDentries(c, p, now).None? then c.(dentries := c.dentries - {p}) else c
  }

  function WithAttr(c: Contents, p: Path, node: Node, now: nat): Contents {
    c.(attrs := c.attrs[p := AttrEntry(node, now + c.attrTTL)])
  }

  function WithDentries(c: Contents, p: Path, entries: seq<Entry>, now: nat): Contents {
    c.(dentries := c.dentries[p := DentryEntry(entries, now + c.dentryTTL)])
  }

  function WithContent(c: Contents, p: Path, version: nat, data: Content): Contents {
    c.(content := c.content[p := ContentEntry(version, data)])
  }

  /** A content entry serves only the version the attributes name. */
  function ContentAt(c: Contents, p: Path, version: nat): Option<Content> {
    if p in c.content && c.content[p].version == version then Some(c.content[p].data) else None
  }

  function Invalidated(c: Contents, p: Path): Contents {
    c.(attrs := c.attrs - {p}, content := c.content - {p}, dentries := c.dentries - {ParentDir(p)})
  }

  // ----- paths -----

  function ChildPath(dir: Path, name: string): Path {
    if dir == "/" then "/" + name else dir + "/" + name
  }

  /** The search for the last separator, from index `i` down. */
  function ParentFrom(path: Path, i: nat): Path
    requires i < |path| || i == 0
  {
    if i == 0 then "/"
    else if path[i] == '/' then (if i == 1 then "/" else path[..i])
    else ParentFrom(path, i - 1)
  }

  function ParentDir(path: Path): Path {
    ParentFrom(path, if path == "" then 0 else |path| - 1)
  }

  method FindParentDir(path: Path) returns (dir: Path)
    ensures dir == ParentDir(path)
  {
    var i := |path| - 1;
    while i > 0
      invariant -1 <= i < |path|
      invariant ParentDir(path) == ParentFrom(path, if i < 0 then 0 else i)
    {
      if path[i] == '/' {
        return if i == 1 then "/" else path[..i];
      }
      i := i - 1;
    }
    return "/";
  }

  lemma {:induction false} ParentFromSkips(path: Path, j: nat, i: nat)
    requires j <= i < |path|
    requires forall k | j < k <= i :: path[k] != '/'
    ensures ParentFrom(path, i) == ParentFrom(path, j)
    decreases i
  {
    if j < i {
      ParentFromSkips(path, j, i - 1);
    }
  }

  /** Dropping the listing of a child's parent drops the listing the directory
      itself was cached under, exactly for the root and for every directory path
      longer than one character. */
  lemma ParentOfChildIff(dir: Path, name: string)
    requires '/' !in name
    ensures ParentDir(ChildPath(dir, name)) == dir <==> dir == "/" || |dir| > 1
  {
    var path := ChildPath(dir, name);
    var slash := if dir == "/" then 0 else |dir|;
    assert path[slash] == '/';
    assert forall k | slash < k < |path| :: path[k] == name[k - slash - 1];
    ParentFromSkips(path, slash, |path| - 1);
    assert dir != "/" ==> path[..|dir|] == dir;
    assert |dir| == 1 && dir != "/" ==> ParentDir(path) == "/" != dir;
  }

  // ----- the object -----

  class Cache {
    const attrTTL: nat
    const dentryTTL: nat
    var attrs: map<Path, AttrEntry>
    var dentries: map<Path, DentryEntry>
    var content: map<Path, ContentEntry>

    function View(): Contents
      reads this
    {
      Contents(attrTTL, dentryTTL, attrs, dentries, content)
    }

    constructor (attrTTL: nat, dentryTTL: nat)
      ensures View() == EmptyContents(attrTTL, dentryTTL)
    {
      this.attrTTL, this.dentryTTL := attrTTL, dentryTTL;
      attrs, dentries, content := map[], map[], map[];
    }

    method GetAttr(path: Path, now: nat) returns (node: Option<Node>)
      modifies this
      ensures node == old(LiveAttr(View(), path, now))
      ensures View() == old(AfterGetAttr(View(), path, now))
    {
      if path !in attrs || now > attrs[path].exp {
        attrs := attrs - {path};
        return None;
      }
      return Some(attrs[path].node);
    }

    method PutAttr(path: Path, node: Node, now: nat)
      modifies this
      ensures View() == old(WithAttr(View(), path, node, now))
    {
      attrs := attrs[path := AttrEntry(node, now + attrTTL)];
    }

    method GetContent(path: Path, version: nat) returns (data: Option<Content>)
      ensures data == ContentAt(View(), path, version)
    {
      if path !in content || content[path].version != version {
        return None;
      }
      return Some(content[path].data);
    }

    method PutContent(path: Path, version: nat, data: Content)
      modifies this
      ensures View() == old(WithContent(View(), path, version, data))
    {
      content := content[path := ContentEntry(version, data)];
    }

    method GetDentries(path: Path, now: nat) returns (entries: Option<seq<Entry>>)
      modifies this
      ensures entries == old(LiveDentries(View(), path, now))
      ensures View() == old(AfterGetDentries(View(), path, now))
    {
      if path !in dentries || now > dentries[path].exp {
        dentries := dentries - {path};
        return None;
      }
      return Some(dentries[path].entries);
    }

    method PutDentries(path: Path, entries: seq<Entry>, now: nat)
      modifies this
      ensures View() == old(WithDentries(View(), path, entries, now))
    {
      dentries := dentries[path := DentryEntry(entries, now + dentryTTL)];
    }

    method Invalidate(path: Path)
      modifies this
      ensures View() == old(Invalidated(View(), path))
    {
      attrs := attrs - {path};
      content := content - {path};
      var parent := FindParentDir(path);
      dentries := dentries - {parent};
    }
  }
}

/**
 * Extraction of a Product Hunt slug from what the user typed: a bare slug, a
 * product or post URL, or some other path.  The same decision logic appears in
 * the home page and in the card editor; it is modelled once.
 *
 * URL parsing (`new URL(...)`) is not modelled: it is a parameter that gives the
 * hostname and pathname of an input it accepts and `None` for one it rejects.
 */
module Slug {
  import opened Wrappers
  import opened JsText

  /** The parts of a parsed URL the extraction reads. */
  datatype Url = Url(hostname: string, pathname: string)

  /** `s.endsWith('/') ? s.slice(0, -1) : s`: at most one trailing slash removed. */
  function DropTrailingSlash(s: string): (r: string)
    ensures EndsWith(s, "/") ==> r + "/" == s
    ensures !EndsWith(s, "/") ==> r == s
  {
    if EndsWith(s, "/") then s[..|s| - 1] else s
  }

  /** The non-empty path segments of a pathname, ignoring one trailing slash. */
  function PathSegments(pathname: string): (parts: seq<string>)
    ensures forall i :: 0 <= i < |parts| ==> parts[i] != "" && '/' !in parts[i]
  {
    var pieces := Split(DropTrailingSlash(pathname), '/');
    SplitPiecesFree(DropTrailingSlash(pathname), '/');
    NonEmptyParts(pieces)
  }

  /** The slug of a Product Hunt URL: the segment after `posts` or `products`, when
      the hostname contains `producthunt.com`. */
  function ProductHuntSlug(u: Url): (r: Option<string>)
    ensures r.Some? ==> r.value != "" && '/' !in r.value
    ensures r.Some? <==> Contains(u.hostname, "producthunt.com") && |PathSegments(u.pathname)| >= 2
                         && PathSegments(u.pathname)[0] in {"posts", "products"}
  {
    if Contains(u.hostname, "producthunt.com") then
      var parts := PathSegments(u.pathname);
      if |parts| >= 2 && (parts[0] == "posts" || parts[0] == "products") then Some(parts[1]) else None
    else None
  }

  /** The text after the last slash, once one trailing slash is removed. */
  function LastPiece(s: string): (r: string)
    ensures '/' !in r
  {
    var parts := Split(DropTrailingSlash(s), '/');
    SplitPiecesFree(DropTrailingSlash(s), '/');
    parts[|parts| - 1]
  }

  /** `extractSlugFromUrl(url)`. */
  function ExtractSlug(url: string, parse: string -> Option<Url>): (slug: string)
    ensures '/' !in slug
    ensures '/' !in Trim(url) && '.' !in Trim(url) ==> slug == Trim(url)
  {
    var t := Trim(url);
    ContainsChar(t, '/');
    ContainsChar(t, '.');
    if !Contains(t, "/") && !Contains(t, ".") then t
    else
      var fromUrl := match parse(t) case None => None case Some(u) => ProductHuntSlug(u);
      if fromUrl.Some? then fromUrl.value
      else if Contains(t, "/") then LastPiece(t)
      else t
  }

  /** Splitting `a + t` ends with the same piece as splitting `t`, when `t` holds a
      separator. */
  lemma {:induction false} SplitLastOfSuffix(a: string, t: string, sep: char)
    requires sep in t
    ensures |Split(a + t, sep)| >= 2 && |Split(t, sep)| >= 2
    ensures Split(a + t, sep)[|Split(a + t, sep)| - 1] == Split(t, sep)[|Split(t, sep)| - 1]
    decreases |a| + |t|
  {
    if a == [] {
      assert a + t == t;
      SplitWithSeparator(t, sep);
    } else {
      assert (a + t)[1..] == a[1..] + t;
      assert (a + t)[0] == a[0];
      SplitLastOfSuffix(a[1..], t, sep);
    }
  }

  /** A string holding the separator splits into at least two pieces. */
  lemma {:induction false} SplitWithSeparator(t: string, sep: char)
    requires sep in t
    ensures |Split(t, sep)| >= 2
    decreases |t|
  {
    if t[0] != sep {
      SplitWithSeparator(t[1..], sep);
    }
  }

  /** A leading separator before a separator-free piece gives an empty first piece. */
  lemma SplitAfterSeparator(name: string, sep: char)
    requires sep !in name
    ensures Split([sep] + name, sep) == ["", name]
  {
    SplitNoSeparator(name, sep);
    assert ([sep] + name)[1..] == name;
  }

  /** The last piece is exactly the text after the last slash. */
  lemma LastPieceAfterLastSlash(prefix: string, name: string)
    requires '/' !in name && name != ""
    ensures LastPiece(prefix + "/" + name) == name
  {
    var s := prefix + "/" + name;
    assert !EndsWith(s, "/") by {
      assert s[|s| - 1] == name[|name| - 1];
    }
    SplitAfterSeparator(name, '/');
    assert s == prefix + ("/" + name);
    SplitLastOfSuffix(prefix, "/" + name, '/');
  }

  /** One trailing slash on the pathname does not change the segments. */
  lemma PathSegmentsTrailingSlash(pathname: string)
    ensures PathSegments(pathname + "/") == PathSegments(pathname)
  {
    assert DropTrailingSlash(pathname + "/") == pathname;
    if EndsWith(pathname, "/") {
      var q := DropTrailingSlash(pathname);
      NonEmptyPartsTrailingSep(q, '/');
    } else {
      NonEmptyPartsTrailingSep(pathname, '/');
    }
  }

  /** The segments of `/<kind>/<name>`, with or without one trailing slash. */
  lemma TwoSegmentPath(kind: string, name: string, slash: bool)
    requires kind != "" && name != "" && '/' !in kind && '/' !in name
    ensures PathSegments("/" + kind + "/" + name + (if slash then "/" else "")) == [kind, name]
  {
    var path := "/" + kind + "/" + name;
    JoinCons(kind, [name], '/');
    JoinCons("", [kind, name], '/');
    assert Join(["", kind, name], '/') == path;
    SplitJoin(["", kind, name], '/');
    assert !EndsWith(path, "/") by {
      assert path[|path| - 1] == name[|name| - 1];
    }
    assert NonEmptyParts(["", kind, name]) == [kind, name] by {
      assert NonEmptyParts([name]) == [name] by {
        assert [name][1..] == [];
      }
      assert [kind, name][1..] == [name];
      assert NonEmptyParts([kind, name]) == [kind] + NonEmptyParts([name]);
      assert ["", kind, name][1..] == [kind, name];
      assert NonEmptyParts(["", kind, name]) == [] + NonEmptyParts([kind, name]);
    }
    if slash {
      PathSegmentsTrailingSlash(path);
    } else {
      assert path + "" == path;
    }
  }

  /** A URL whose hostname contains `producthunt.com` and whose path is
      `/posts/<name>` or `/products/<name>`, with or without a trailing slash, gives
      `<name>`. */
  lemma ProductHuntUrlGivesName(url: string, parse: string -> Option<Url>, host: string, kind: string, name: string, slash: bool)
    requires kind == "posts" || kind == "products"
    requires name != "" && '/' !in name
    requires Contains(host, "producthunt.com")
    requires '/' in Trim(url) || '.' in Trim(url)
    requires parse(Trim(url)) == Some(Url(host, "/" + kind + "/" + name + (if slash then "/" else "")))
    ensures ExtractSlug(url, parse) == name
  {
    var u := parse(Trim(url)).value;
    TwoSegmentPath(kind, name, slash);
    assert PathSegments(u.pathname) == [kind, name];
    assert ProductHuntSlug(u) == Some(name);
    ContainsChar(Trim(url), '/');
    ContainsChar(Trim(url), '.');
  }

  /** Any other input holding a slash gives the text after its last slash, once one
      trailing slash is removed. */
  lemma OtherPathGivesLastPiece(url: string, parse: string -> Option<Url>)
    requires '/' in Trim(url)
    requires parse(Trim(url)).None? || ProductHuntSlug(parse(Trim(url)).value).None?
    ensures ExtractSlug(url, parse) == LastPiece(Trim(url))
  {
    ContainsChar(Trim(url), '/');
  }

  /** `random/path/fragment` gives `fragment`. */
  lemma FallbackExample(url: string, parse: string -> Option<Url>)
    requires url == "random/path/fragment" && parse(url).None?
    ensures ExtractSlug(url, parse) == "fragment"
  {
    var name := "fragment";
    assert '/' !in name by {
      assert forall k :: 0 <= k < |name| ==> name[k] != '/';
    }
    assert url == "random/path" + "/" + name;
    LastPieceAfterLastSlash("random/path", name);
    TrimUnchanged(url);
    assert url[11] == '/';
    OtherPathGivesLastPiece(url, parse);
  }

  /** `a/b//` gives the empty slug: only one trailing slash is removed. */
  lemma DoubleSlashExample(parse: string -> Option<Url>)
    requires parse("a/b//").None?
    ensures ExtractSlug("a/b//", parse) == ""
  {
    TrimUnchanged("a/b//");
    OtherPathGivesLastPiece("a/b//", parse);
    assert DropTrailingSlash("a/b//") == "a/b" + "/";
    SplitSepSuffix("a/b", '/');
  }

  /** An input with a dot and no slash that does not parse as a URL, such as
      `example.com`, is used trimmed, as it is. */
  lemma DottedNameKept(url: string, parse: string -> Option<Url>)
    requires '/' !in Trim(url) && '.' in Trim(url)
    requires parse(Trim(url)).None?
    ensures ExtractSlug(url, parse) == Trim(url)
  {
    ContainsChar(Trim(url), '/');
    ContainsChar(Trim(url), '.');
  }
}

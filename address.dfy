/** The collector address of an event: `Core::buildAddress`, which streams
    the project id, the event name and the write key into a fixed URL
    template. `Parse` is its inverse on addresses whose id holds no '/' and
    whose name holds no '?'. */
module Address {
  import Seqs

  const PROJECTS_ROOT := "https://api.keen.io/3.0/projects/"
  const EVENTS_PATH := "/events/"
  const KEY_QUERY := "?api_key="

  datatype Option<T> = None | Some(value: T)

  /** The three values an address is built from. */
  datatype Fields = Fields(id: string, key: string, name: string)

  /** What a `std::stringstream` holds after `ss << parts[0] << parts[1] ...`. */
  function Stream(parts: seq<string>): string
  {
    if parts == [] then "" else Stream(parts[..|parts| - 1]) + parts[|parts| - 1]
  }

  /** `buildAddress(id, key, name)`: the text the stream holds after the
      six insertions, that is the URL template filled in. */
  function BuildAddress(id: string, key: string, name: string): (r: string)
    ensures r == PROJECTS_ROOT + id + EVENTS_PATH + name + KEY_QUERY + key
  {
    var parts := [PROJECTS_ROOT, id, EVENTS_PATH, name, KEY_QUERY, key];
    assert Stream(parts[..1]) == PROJECTS_ROOT by {
      assert parts[..1][..0] == [];
    }
    assert Stream(parts[..2]) == PROJECTS_ROOT + id by {
      assert parts[..2][..1] == parts[..1];
    }
    assert Stream(parts[..3]) == PROJECTS_ROOT + id + EVENTS_PATH by {
      assert parts[..3][..2] == parts[..2];
    }
    assert Stream(parts[..4]) == PROJECTS_ROOT + id + EVENTS_PATH + name by {
      assert parts[..4][..3] == parts[..3];
    }
    assert Stream(parts[..5]) == PROJECTS_ROOT + id + EVENTS_PATH + name + KEY_QUERY by {
      assert parts[..5][..4] == parts[..4];
    }
    Stream(parts)
  }

  /** True when `p` is a prefix of `s`. */
  predicate StartsWith(s: string, p: string) {
    |p| <= |s| && s[..|p|] == p
  }

  /** Splits an address back into its fields: the id runs to the first '/'
      after the root, the name to the first '?' after the events path. */
  function Parse(s: string): Option<Fields>
  {
    ParseTemplate(s, PROJECTS_ROOT, EVENTS_PATH, KEY_QUERY)
  }

  /** Splits `root + id + path + name + query + key`, where the id ends at
      the first character of `path` and the name at the first character of
      `query`. */
  function ParseTemplate(s: string, root: string, path: string, query: string): Option<Fields>
    requires |path| > 0 && |query| > 0
  {
    if !StartsWith(s, root) then None
    else
      var afterRoot := s[|root|..];
      var i := Seqs.Find(afterRoot, path[0]);
      match ParseTail(afterRoot[i..], path, query)
      case None => None
      case Some(nameKey) => Some(Fields(afterRoot[..i], nameKey.1, nameKey.0))
  }

  /** Splits `path + name + query + key` into its name and key. */
  function ParseTail(s: string, path: string, query: string): Option<(string, string)>
    requires |query| > 0
  {
    if !StartsWith(s, path) then None
    else
      var afterPath := s[|path|..];
      var j := Seqs.Find(afterPath, query[0]);
      var fromQuery := afterPath[j..];
      if !StartsWith(fromQuery, query) then None
      else Some((afterPath[..j], fromQuery[|query|..]))
  }

  /** A prefix followed by a rest starts with that prefix, and dropping
      it leaves the rest. */
  lemma Split(p: string, t: string)
    ensures StartsWith(p + t, p) && (p + t)[|p|..] == t
  {
    assert (p + t)[..|p|] == p;
  }

  /** A string that starts with `p` is `p` followed by the rest. */
  lemma Unsplit(s: string, p: string)
    requires StartsWith(s, p)
    ensures s == p + s[|p|..]
  {
    assert s == s[..|p|] + s[|p|..];
  }

  /** Concatenation regrouped to the right. */
  lemma Assoc(a: string, b: string, c: string, d: string)
    ensures a + b + c + d == a + (b + (c + d))
  {
  }

  /** A string split after `x` whose rest is four pieces is `x` and the
      four pieces. */
  lemma Reassemble(s: string, x: string, t: string, a: string, b: string, c: string, d: string)
    requires s == x + t && t == a + b + c + d
    ensures s == x + a + b + c + d
  {
  }

  /** `ParseTail` recovers the name and key of a tail it did not build,
      given that the name holds no first character of the query. */
  lemma ParseBuildTail(name: string, key: string, path: string, query: string)
    requires |query| > 0 && query[0] !in name
    ensures ParseTail(path + name + query + key, path, query) == Some((name, key))
  {
    var afterPath := name + (query + key);
    Assoc(path, name, query, key);
    Split(path, afterPath);
    Seqs.FindPastPrefix(name, query + key, query[0]);
    assert Seqs.Find(afterPath, query[0]) == |name|;
    Split(name, query + key);
    assert afterPath[..|name|] == name;
    Split(query, key);
  }

  /** `ParseTemplate` recovers the fields of any template instance whose
      id and name cannot be mistaken for the separators that follow them. */
  lemma ParseBuildTemplate(f: Fields, root: string, path: string, query: string)
    requires |path| > 0 && |query| > 0
    requires path[0] !in f.id && query[0] !in f.name
    ensures ParseTemplate(root + f.id + path + f.name + query + f.key, root, path, query) == Some(f)
  {
    var fromPath := path + f.name + query + f.key;
    var afterRoot := f.id + fromPath;
    assert root + f.id + path + f.name + query + f.key == root + afterRoot by {
      Reassemble(root + afterRoot, root + f.id, fromPath, path, f.name, query, f.key);
    }
    Split(root, afterRoot);
    Seqs.FindPastPrefix(f.id, fromPath, path[0]);
    assert Seqs.Find(afterRoot, path[0]) == |f.id|;
    Split(f.id, fromPath);
    assert afterRoot[..|f.id|] == f.id;
    ParseBuildTail(f.name, f.key, path, query);
  }

  /** A tail that `ParseTail` accepts is rebuilt from what it returns. */
  lemma BuildParseTail(s: string, path: string, query: string, name: string, key: string)
    requires |query| > 0 && ParseTail(s, path, query) == Some((name, key))
    ensures path + name + query + key == s
  {
    var afterPath := s[|path|..];
    Unsplit(s, path);
    var j := Seqs.Find(afterPath, query[0]);
    var fromQuery := afterPath[j..];
    assert afterPath == name + fromQuery;
    Unsplit(fromQuery, query);
    Assoc(path, name, query, key);
  }

  /** A string that `ParseTemplate` accepts is rebuilt from what it
      returns. */
  lemma BuildParseTemplate(s: string, f: Fields, root: string, path: string, query: string)
    requires |path| > 0 && |query| > 0
    requires ParseTemplate(s, root, path, query) == Some(f)
    ensures root + f.id + path + f.name + query + f.key == s
  {
    var afterRoot := s[|root|..];
    var i := Seqs.Find(afterRoot, path[0]);
    var fromPath := afterRoot[i..];
    assert ParseTail(fromPath, path, query) == Some((f.name, f.key));
    assert f.id == afterRoot[..i];
    Unsplit(s, root);
    Cut(afterRoot, i);
    Rejoin(s, root, afterRoot, f.id, fromPath);
    BuildParseTail(fromPath, path, query, f.name, f.key);
    Reassemble(s, root + f.id, fromPath, path, f.name, query, f.key);
  }

  /** A string is its prefix of length `k` followed by the rest. */
  lemma Cut(s: string, k: nat)
    requires k <= |s|
    ensures s == s[..k] + s[k..]
  {
  }

  /** Substituting a split of `a` into `x + a`. */
  lemma Rejoin(s: string, x: string, a: string, y: string, t: string)
    requires s == x + a && a == y + t
    ensures s == x + y + t
  {
  }

  /** Parsing a built address gives back its fields, as long as the id
      cannot be mistaken for the events path and the name for the query. */
  lemma ParseBuild(id: string, key: string, name: string)
    requires '/' !in id && '?' !in name
    ensures Parse(BuildAddress(id, key, name)) == Some(Fields(id, key, name))
  {
    ParseBuildTemplate(Fields(id, key, name), PROJECTS_ROOT, EVENTS_PATH, KEY_QUERY);
  }

  /** Every address that parses is the address of the fields it parses to. */
  lemma BuildParse(s: string, f: Fields)
    requires Parse(s) == Some(f)
    ensures BuildAddress(f.id, f.key, f.name) == s
  {
    BuildParseTemplate(s, f, PROJECTS_ROOT, EVENTS_PATH, KEY_QUERY);
  }

  /** Without the restriction of `ParseBuild` two different event
      addresses collide, since no field is escaped. */
  lemma AddressesCollide()
    ensures BuildAddress("a/events/b", "k", "c") == BuildAddress("a", "k", "b/events/c")
  {
  }
}

/**
 * Names of stored objects: folders, hierarchical keys, their sidecars, and the
 * joined path the read cache keys an object by.
 */
module StoragePaths {
  import opened Prelude

  const META_SUFFIX: string := ".__meta__"

  // ─── Splitting and joining on '/' ───────────────────────────────────────

  /** JavaScript's `text.split('/')`: never empty, `""` splits to `[""]`. */
  function Split(text: string): (segments: seq<string>)
    ensures |segments| >= 1
    ensures forall i :: 0 <= i < |segments| ==> '/' !in segments[i]
  {
    if text == "" then [""] else Prepend(text[0], Split(text[1..]))
  }

  /** One more character in front of already split text. */
  function Prepend(c: char, segments: seq<string>): seq<string>
    requires segments != []
  {
    if c == '/' then [""] + segments else [[c] + segments[0]] + segments[1..]
  }

  /** JavaScript's `segments.join('/')`. */
  function Join(segments: seq<string>): string
  {
    if segments == [] then ""
    else if |segments| == 1 then segments[0]
    else segments[0] + "/" + Join(segments[1..])
  }

  predicate StartsWith(text: string, prefix: string)
  {
    |prefix| <= |text| && text[..|prefix|] == prefix
  }

  predicate EndsWith(text: string, suffix: string)
  {
    |suffix| <= |text| && text[|text| - |suffix|..] == suffix
  }

  lemma {:induction false} SplitOfPlain(text: string)
    requires '/' !in text
    ensures Split(text) == [text]
  {
    if text != "" {
      SplitOfPlain(text[1..]);
      assert [text[0]] + text[1..] == text;
    }
  }

  lemma PrependConcat(c: char, left: seq<string>, right: seq<string>)
    requires left != []
    ensures Prepend(c, left + right) == Prepend(c, left) + right
  {
    assert (left + right)[1..] == left[1..] + right;
  }

  /** Splitting distributes over a separator in the middle. */
  lemma {:induction false} SplitConcat(left: string, right: string)
    ensures Split(left + "/" + right) == Split(left) + Split(right)
  {
    var text := left + "/" + right;
    if left == "" {
      assert text[1..] == right;
    } else {
      assert text[1..] == left[1..] + "/" + right;
      SplitConcat(left[1..], right);
      PrependConcat(left[0], Split(left[1..]), Split(right));
    }
  }

  /** Joining undoes splitting on every text ... */
  lemma {:induction false} JoinSplit(text: string)
    ensures Join(Split(text)) == text
  {
    if text != "" {
      JoinSplit(text[1..]);
      var rest := Split(text[1..]);
      if text[0] == '/' {
        assert ([""] + rest)[1..] == rest;
      } else if |rest| > 1 {
        assert ([[text[0]] + rest[0]] + rest[1..])[1..] == rest[1..];
      }
    }
  }

  /** ... and splitting undoes joining on every list of separator-free names. */
  lemma {:induction false} SplitJoin(segments: seq<string>)
    requires segments != []
    requires forall i :: 0 <= i < |segments| ==> '/' !in segments[i]
    ensures Split(Join(segments)) == segments
  {
    SplitOfPlain(segments[0]);
    if |segments| > 1 {
      SplitJoin(segments[1..]);
      SplitConcat(segments[0], Join(segments[1..]));
      assert [segments[0]] + segments[1..] == segments;
    }
  }

  lemma SplitInjective(a: string, b: string)
    ensures Split(a) == Split(b) <==> a == b
  {
    JoinSplit(a);
    JoinSplit(b);
  }

  // ─── Keys, folders and sidecars ─────────────────────────────────────────

  datatype SplitKeyResult = SplitKeyResult(dirs: seq<string>, leaf: string)

  predicate InvalidChar(c: char)
  {
    c == '/' || c == '\\' || c as int <= 0x1f || c as int == 0x7f
  }

  function MetaName(leaf: string): string
  {
    leaf + META_SUFFIX
  }

  predicate IsMetaName(name: string)
  {
    EndsWith(name, META_SUFFIX)
  }

  predicate ValidSegment(s: string)
  {
    && s != "" && s != "." && s != ".."
    && (forall i :: 0 <= i < |s| ==> !InvalidChar(s[i]))
    && !IsMetaName(s)
  }

  /** `validateSegments`: every segment of a key must be one OPFS name. */
  predicate ValidateSegments(segments: seq<string>)
  {
    segments != [] && forall i :: 0 <= i < |segments| ==> ValidSegment(segments[i])
  }

  /** `splitKey`: the key's directories and leaf, or a `TypeError`. */
  function SplitKey(key: string): (r: Option<SplitKeyResult>)
  {
    if key == "" || EndsWith(key, "/") then None
    else
      var segments := Split(key);
      if ValidateSegments(segments)
      then Some(SplitKeyResult(segments[..|segments| - 1], segments[|segments| - 1]))
      else None
  }

  function JoinKey(dirs: seq<string>, leaf: string): string
  {
    Join(dirs + [leaf])
  }

  /** `storageFolderSegments`: a folder's path below the storage root. */
  function FolderSegments(folder: string): (r: Option<seq<string>>)
  {
    var segments := Split(folder);
    if forall s | s in segments :: s != "" && s != "." && s != ".."
    then Some(segments) else None
  }

  /** A key that splits joins back to itself. */
  lemma SplitThenJoin(key: string)
    requires SplitKey(key).Some?
    ensures JoinKey(SplitKey(key).value.dirs, SplitKey(key).value.leaf) == key
  {
    JoinSplit(key);
    var segments := Split(key);
    assert segments[..|segments| - 1] + [segments[|segments| - 1]] == segments;
  }

  lemma {:induction false} JoinEndsInLast(segments: seq<string>)
    requires segments != [] && segments[|segments| - 1] != ""
    ensures var text, last := Join(segments), segments[|segments| - 1];
            text != "" && text[|text| - 1] == last[|last| - 1]
  {
    if |segments| > 1 {
      JoinEndsInLast(segments[1..]);
    }
  }

  /** Valid directories and a valid leaf join to a key that splits back to them. */
  lemma JoinThenSplit(dirs: seq<string>, leaf: string)
    requires ValidateSegments(dirs + [leaf])
    ensures SplitKey(JoinKey(dirs, leaf)) == Some(SplitKeyResult(dirs, leaf))
  {
    var segments := dirs + [leaf];
    forall i | 0 <= i < |segments| ensures '/' !in segments[i] {
      assert ValidSegment(segments[i]);
    }
    SplitJoin(segments);
    assert segments[|segments| - 1] == leaf;
    JoinEndsInLast(segments);
    assert ValidSegment(leaf);
    assert segments[..|segments| - 1] == dirs;
  }

  /** No object's sidecar can be addressed as, or hidden behind, an object. */
  lemma SidecarIsNeverASegment(leaf: string, segment: string)
    ensures IsMetaName(MetaName(leaf))
    ensures ValidSegment(segment) ==> segment != MetaName(leaf)
  {
  }

  // ─── Which names are names ──────────────────────────────────────────────

  predicate Alphanumeric(s: string)
  {
    s != "" && forall i :: 0 <= i < |s| ==> 'a' <= s[i] <= 'z' || 'A' <= s[i] <= 'Z' || '0' <= s[i] <= '9'
  }

  lemma SidecarsEndAlike(name: string)
    ensures IsMetaName(name) ==> |name| >= |META_SUFFIX| && name[|name| - 1] == '_'
  {
    if IsMetaName(name) { assert name[|name| - |META_SUFFIX|..][|META_SUFFIX| - 1] == name[|name| - 1]; }
  }

  /** An ordinary name is a segment; so is one with an extension that is not the sidecar's. */
  lemma OrdinaryNamesAreSegments(stem: string, extension: string)
    requires Alphanumeric(stem) && Alphanumeric(extension)
    ensures ValidSegment(stem) && ValidSegment(stem + "." + extension)
  {
    var name := stem + "." + extension;
    assert name[0] == stem[0] && name[|name| - 1] == extension[|extension| - 1];
    SidecarsEndAlike(name);
    SidecarsEndAlike(stem);
    forall i | 0 <= i < |name| ensures !InvalidChar(name[i]) {
      if i > |stem| { assert name[i] == extension[i - |stem| - 1]; }
    }
  }

  /** No empty or dot name is one, no name with a separator of any system or a control character, and no sidecar's. */
  lemma RefusedNames(s: string, leaf: string, i: nat)
    ensures !ValidSegment("") && !ValidSegment(".") && !ValidSegment("..") && !ValidSegment(MetaName(leaf))
    ensures i < |s| && (s[i] == '/' || s[i] == '\\' || s[i] as int < 0x20 || s[i] as int == 0x7f) ==> !ValidSegment(s)
  {
    SidecarIsNeverASegment(leaf, MetaName(leaf));
  }

  lemma SegmentsArePlain(segments: seq<string>)
    requires ValidateSegments(segments)
    ensures forall i :: 0 <= i < |segments| ==> '/' !in segments[i]
    ensures forall s :: s in segments ==> s != "" && s != "." && s != ".."
  {
    forall i | 0 <= i < |segments| ensures '/' !in segments[i] { assert ValidSegment(segments[i]); }
  }

  // ─── Cache paths and OPFS files ─────────────────────────────────────────

  /** The read cache's key for an object. */
  function ObjectPath(folder: string, key: string): string
  {
    folder + "/" + key
  }

  /** Where OPFS keeps `folder/key`: directory names below the root, leaf last. */
  function OpfsFile(folder: string, key: string): (r: Option<seq<string>>)
  {
    match (FolderSegments(folder), SplitKey(key))
    case (Some(above), Some(split)) => Some(above + split.dirs + [split.leaf])
    case _ => None
  }

  lemma FolderOfNames(folder: seq<string>)
    requires ValidateSegments(folder)
    ensures FolderSegments(Join(folder)) == Some(folder)
  {
    SegmentsArePlain(folder);
    SplitJoin(folder);
  }

  /** A folder and a key of valid names are an object, in the directories they name. */
  lemma NamesHaveAFile(folder: seq<string>, dirs: seq<string>, leaf: string)
    requires ValidateSegments(folder) && ValidateSegments(dirs + [leaf])
    ensures OpfsFile(Join(folder), JoinKey(dirs, leaf)) == Some(folder + dirs + [leaf])
  {
    FolderOfNames(folder);
    JoinThenSplit(dirs, leaf);
  }

  /** Two names share a cache entry exactly when they name the same OPFS file. */
  lemma SamePathIffSameFile(f1: string, k1: string, f2: string, k2: string)
    requires OpfsFile(f1, k1).Some? && OpfsFile(f2, k2).Some?
    ensures ObjectPath(f1, k1) == ObjectPath(f2, k2) <==> OpfsFile(f1, k1) == OpfsFile(f2, k2)
  {
    OpfsFileIsSplitPath(f1, k1);
    OpfsFileIsSplitPath(f2, k2);
    SplitInjective(ObjectPath(f1, k1), ObjectPath(f2, k2));
  }

  /** The OPFS location is exactly the cache path, split. */
  lemma OpfsFileIsSplitPath(folder: string, key: string)
    requires OpfsFile(folder, key).Some?
    ensures OpfsFile(folder, key) == Some(Split(ObjectPath(folder, key)))
  {
    SplitConcat(folder, key);
    var segments := Split(key);
    assert Split(folder) + segments[..|segments| - 1] + [segments[|segments| - 1]] == Split(folder) + segments;
  }

  /** `path` lies strictly below `folder`: what `remove_folder` looks for. */
  predicate Under(folder: string, path: string)
  {
    StartsWith(path, folder + "/")
  }

  predicate IsProperPrefix<T(==)>(short: seq<T>, long: seq<T>)
  {
    |short| < |long| && long[..|short|] == short
  }

  /**
   * The textual test `starts_with("{folder}/")` is the structural one: the
   * path's segments extend the folder's by at least one name.
   */
  lemma UnderIffSegmentsExtend(folder: string, path: string)
    ensures Under(folder, path) <==> IsProperPrefix(Split(folder), Split(path))
  {
    if Under(folder, path) {
      var rest := path[|folder| + 1..];
      assert path == path[..|folder| + 1] + rest;
      assert path == folder + "/" + rest;
      SplitConcat(folder, rest);
    }
    if IsProperPrefix(Split(folder), Split(path)) {
      var above, below := Split(folder), Split(path)[|Split(folder)|..];
      assert Split(path) == above + below;
      JoinSplit(path);
      JoinSplit(folder);
      JoinConcat(above, below);
      assert path == folder + "/" + Join(below);
      assert path[..|folder| + 1] == folder + "/";
    }
  }

  lemma {:induction false} JoinConcat(above: seq<string>, below: seq<string>)
    requires above != [] && below != []
    ensures Join(above + below) == Join(above) + "/" + Join(below)
  {
    if |above| == 1 {
      assert (above + below)[1..] == below;
    } else {
      assert (above + below)[1..] == above[1..] + below;
      JoinConcat(above[1..], below);
    }
  }

  /** An object's sidecar is under a folder exactly when the object is. */
  lemma SidecarUnderIffObjectUnder(folder: string, path: string)
    ensures Under(folder, MetaName(path)) <==> Under(folder, path)
  {
    var meta, prefix := MetaName(path), folder + "/";
    if |prefix| <= |path| {
      assert meta[..|prefix|] == path[..|prefix|];
    } else if |prefix| <= |meta| {
      assert prefix[|folder|] == '/';
      assert meta[..|prefix|][|folder|] == META_SUFFIX[|folder| - |path|];
    }
  }

  /**
   * A folder's names are checked less than a key's, so an object stored in a
   * sub-folder is listed in `folder` under a key that may not be one. It is
   * one exactly when every name between the two is a valid segment.
   */
  lemma ListedKeyIsAKeyIff(between: seq<string>, key: string)
    requires between != [] && SplitKey(key).Some?
    requires forall i :: 0 <= i < |between| ==> '/' !in between[i]
    ensures SplitKey(Join(between) + "/" + key).Some? <==> forall i :: 0 <= i < |between| ==> ValidSegment(between[i])
  {
    var above := Join(between) + "/";
    SplitConcat(Join(between), key);
    SplitJoin(between);
    SegmentsOfBoth(between, Split(key));
    EndsLikeItsTail(above, key);
    KeySplits(key);
    KeySplits(above + key);
  }

  lemma KeySplits(key: string)
    ensures SplitKey(key).Some? <==> key != "" && !EndsWith(key, "/") && ValidateSegments(Split(key))
  {
  }

  lemma EndsLikeItsTail(head: string, tail: string)
    requires tail != ""
    ensures EndsWith(head + tail, "/") <==> EndsWith(tail, "/")
  {
    assert (head + tail)[|head| + |tail| - 1..] == tail[|tail| - 1..];
  }

  lemma SegmentsOfBoth(a: seq<string>, b: seq<string>)
    requires a != [] && b != []
    ensures ValidateSegments(a + b) <==> ValidateSegments(a) && ValidateSegments(b)
  {
    var both := a + b;
    assert forall i :: 0 <= i < |a| ==> both[i] == a[i];
    assert forall i :: 0 <= i < |b| ==> both[|a| + i] == b[i];
  }

  /**
   * Such keys exist: beside any folder that can hold `key` there is one named
   * like a sidecar (`a/x.__meta__` beside `a`) that a put accepts, and that the
   * listing of the outer folder shows as a key no read accepts.
   */
  lemma ListedKeyNoReadAccepts(folder: string, leaf: string, key: string)
    requires OpfsFile(folder, key).Some? && '/' !in leaf
    ensures OpfsFile(folder + "/" + MetaName(leaf), key).Some?
    ensures SplitKey(MetaName(leaf) + "/" + key).None?
  {
    var name := MetaName(leaf);
    SidecarIsNeverASegment(leaf, name);
    SplitConcat(folder, name);
    SplitOfPlain(name);
    assert Split(folder + "/" + name) == Split(folder) + [name];
    assert |name| >= 9;
    ListedKeyIsAKeyIff([name], key);
  }
}

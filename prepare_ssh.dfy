/** `Sources/ExecutorCore/Commands/PrepareSSH.swift`: collects the public keys
    found in the folder shared with the VM and merges them, together with the
    keys already authorised, into `~/.ssh/authorized_keys`.

    The file system is a map from paths to file contents; a path that is absent
    cannot be read. What Spotlight finds and what the shared `ssh` folder lists
    are parameters, as is whether the final write succeeds. */
module PrepareSSH {
  import opened Wrappers
  import opened Strings
  import opened Commands

  type Files = map<string, string>

  /** `PublicKeyLocator.baseLocation`. */
  const SharedFolder: string := "/Volumes/My Shared Files"
  const SharedKeyFolder: string := SharedFolder + "/ssh"

  /** `~/.ssh/authorized_keys`, the tilde expanded to `home`. */
  function AuthorizedKeysPath(home: string): string
  {
    home + "/.ssh/authorized_keys"
  }

  /** `fm.contents(atPath:)` decoded as text: nothing when the file cannot be read. */
  function Read(files: Files, path: string): Option<string>
  {
    if path in files then Some(files[path]) else None
  }

  /** A key as it is stored: one line, without whitespace at either end. */
  predicate CleanKey(key: string)
  {
    '\n' !in key && Trim(key) == key
  }

  /** `publicKeys(at:)`: every line of the file, trimmed, blank lines included;
      no key at all when the file cannot be read. */
  function PublicKeys(contents: Option<string>): (keys: seq<string>)
    ensures contents.None? ==> keys == []
    ensures contents.Some? ==> |keys| == multiset(contents.value)['\n'] + 1
  {
    match contents
    case None => []
    case Some(text) =>
      SplitCount(text, '\n');
      TrimAll(Split(text, '\n'))
  }

  /** `.map { $0.trimmingCharacters(in: .whitespacesAndNewlines) }`. */
  function TrimAll(lines: seq<string>): (r: seq<string>)
    ensures |r| == |lines|
  {
    seq(|lines|, k requires 0 <= k < |lines| => Trim(lines[k]))
  }

  /** Clean keys come through trimming unchanged. */
  lemma {:induction false} TrimAllClean(keys: seq<string>)
    requires forall k :: 0 <= k < |keys| ==> CleanKey(keys[k])
    ensures TrimAll(keys) == keys
  {
  }

  /** Every key read from a file is clean. */
  lemma {:induction false} PublicKeysClean(contents: Option<string>)
    ensures forall k :: 0 <= k < |PublicKeys(contents)| ==> CleanKey(PublicKeys(contents)[k])
  {
    if contents.Some? {
      var lines := Split(contents.value, '\n');
      SplitPiecesAvoid(contents.value, '\n');
      forall k | 0 <= k < |lines|
        ensures CleanKey(Trim(lines[k]))
      {
        TrimKeepsAbsent(lines[k], '\n');
        TrimIdempotent(lines[k]);
      }
    }
  }

  /** `urls.flatMap(publicKeys)`. */
  function KeysIn(files: Files, paths: seq<string>): seq<string>
  {
    if |paths| == 0 then [] else PublicKeys(Read(files, paths[0])) + KeysIn(files, paths[1..])
  }

  lemma {:induction false} KeysInClean(files: Files, paths: seq<string>)
    ensures forall k :: 0 <= k < |KeysIn(files, paths)| ==> CleanKey(KeysIn(files, paths)[k])
    decreases |paths|
  {
    if |paths| > 0 {
      PublicKeysClean(Read(files, paths[0]));
      KeysInClean(files, paths[1..]);
    }
  }

  /** Changing a file that is not among `paths` does not change their keys. */
  lemma {:induction false} KeysInUnchanged(files: Files, paths: seq<string>, path: string, contents: string)
    requires path !in paths
    ensures KeysIn(files[path := contents], paths) == KeysIn(files, paths)
    decreases |paths|
  {
    if |paths| > 0 {
      assert Read(files[path := contents], paths[0]) == Read(files, paths[0]);
      KeysInUnchanged(files, paths[1..], path, contents);
    }
  }

  /** `allKeys`: the keys already authorised, then those of each key file. */
  function Collected(files: Files, home: string, urls: seq<string>): seq<string>
  {
    PublicKeys(Read(files, AuthorizedKeysPath(home))) + KeysIn(files, urls)
  }

  lemma {:induction false} CollectedClean(files: Files, home: string, urls: seq<string>)
    ensures forall k :: 0 <= k < |Collected(files, home, urls)| ==> CleanKey(Collected(files, home, urls)[k])
  {
    PublicKeysClean(Read(files, AuthorizedKeysPath(home)));
    KeysInClean(files, urls);
  }

  predicate Distinct(xs: seq<string>)
  {
    forall i, j :: 0 <= i < j < |xs| ==> xs[i] != xs[j]
  }

  /** `Set(allKeys)` listed in the order of first occurrence: the same members,
      each once. */
  function Dedupe(xs: seq<string>): (r: seq<string>)
    ensures forall x :: x in r <==> x in xs
    ensures Distinct(r)
    decreases |xs|
  {
    if |xs| == 0 then []
    else
      var front := Dedupe(xs[..|xs| - 1]);
      assert xs == xs[..|xs| - 1] + [xs[|xs| - 1]];
      if xs[|xs| - 1] in front then front else front + [xs[|xs| - 1]]
  }

  /** A list without repetitions is left as it is. */
  lemma {:induction false} DedupeDistinct(xs: seq<string>)
    requires Distinct(xs)
    ensures Dedupe(xs) == xs
    decreases |xs|
  {
    if |xs| > 0 {
      DedupeDistinct(xs[..|xs| - 1]);
      assert xs == xs[..|xs| - 1] + [xs[|xs| - 1]];
    }
  }

  /** Appending keys that are already present changes nothing. */
  lemma {:induction false} DedupeAbsorb(xs: seq<string>, ys: seq<string>)
    requires forall y :: y in ys ==> y in xs
    ensures Dedupe(xs + ys) == Dedupe(xs)
    decreases |ys|
  {
    if |ys| > 0 {
      var init := ys[..|ys| - 1];
      DedupeAbsorb(xs, init);
      assert (xs + ys)[..|xs + ys| - 1] == xs + init;
      assert (xs + ys)[|xs + ys| - 1] == ys[|ys| - 1];
    } else {
      assert xs + ys == xs;
    }
  }

  /** The text written to `authorized_keys`: the distinct keys, one per line. */
  function AuthorizedKeys(keys: seq<string>): string
  {
    Join(Dedupe(keys), "\n")
  }

  /** Reading back what was written gives every key exactly once: the lines of
      the file are the distinct keys. */
  lemma {:induction false} AuthorizedKeysReadBack(keys: seq<string>)
    requires |keys| > 0
    requires forall k :: 0 <= k < |keys| ==> CleanKey(keys[k])
    ensures PublicKeys(Some(AuthorizedKeys(keys))) == Dedupe(keys)
  {
    var d := Dedupe(keys);
    assert keys[0] in d;
    assert forall k :: 0 <= k < |d| ==> CleanKey(d[k]) by {
      forall k | 0 <= k < |d|
        ensures CleanKey(d[k])
      {
        assert d[k] in keys;
      }
    }
    SplitJoin(d, '\n');
    TrimAllClean(d);
  }

  /** The lines of the written file are the collected keys, every one of them,
      and no line appears twice. */
  lemma {:induction false} AuthorizedKeysLines(keys: seq<string>)
    requires |keys| > 0
    requires forall k :: 0 <= k < |keys| ==> CleanKey(keys[k])
    ensures forall x :: x in Split(AuthorizedKeys(keys), '\n') <==> x in keys
    ensures Distinct(Split(AuthorizedKeys(keys), '\n'))
  {
    var d := Dedupe(keys);
    assert keys[0] in d;
    forall k | 0 <= k < |d|
      ensures '\n' !in d[k]
    {
      assert d[k] in keys;
    }
    SplitJoin(d, '\n');
  }

  /** Running the hook twice over the same shared key files writes the same
      lines the second time as the first, each once: the keys read back from
      the file add nothing new. Only the set of lines is promised, since the
      order in which a `Set` is joined may differ from one run to the next. */
  lemma {:induction false} PrepareSSHIdempotent(files: Files, home: string, urls: seq<string>)
    requires AuthorizedKeysPath(home) !in urls
    ensures
      var path := AuthorizedKeysPath(home);
      var written := AuthorizedKeys(Collected(files, home, urls));
      var second := AuthorizedKeys(Collected(files[path := written], home, urls));
      (forall x :: x in Split(second, '\n') <==> x in Split(written, '\n'))
      && Distinct(Split(second, '\n'))
  {
    var path := AuthorizedKeysPath(home);
    var all := Collected(files, home, urls);
    var rest := KeysIn(files, urls);
    var written := AuthorizedKeys(all);
    var d := Dedupe(all);
    KeysInUnchanged(files, urls, path, written);
    assert Read(files[path := written], path) == Some(written);
    CollectedClean(files, home, urls);
    if |all| > 0 {
      AuthorizedKeysReadBack(all);
      assert Collected(files[path := written], home, urls) == d + rest;
      DedupeAbsorb(d, rest);
      DedupeDistinct(d);
      AuthorizedKeysLines(all);
    } else {
      assert written == "";
      assert Split("", '\n') == [""];
      assert Trim("") == "";
      assert Collected(files[path := written], home, urls) == [""];
      assert Dedupe([""]) == [""];
      assert Distinct([""]);
    }
  }

  /** The index of the last `c` in `s`, or -1 when there is none. */
  function LastIndexOf(s: string, c: char): (i: int)
    ensures -1 <= i < |s|
    ensures i >= 0 ==> s[i] == c && c !in s[i + 1..]
    ensures i == -1 ==> c !in s
    decreases |s|
  {
    if |s| == 0 then -1
    else if s[|s| - 1] == c then |s| - 1
    else
      assert s == s[..|s| - 1] + [s[|s| - 1]];
      LastIndexOf(s[..|s| - 1], c)
  }

  /** `pathExtension` of a file name: what follows its last dot, unless that dot
      starts the name. */
  function PathExtension(name: string): (ext: string)
    ensures '.' !in ext
  {
    var i := LastIndexOf(name, '.');
    if i > 0 then name[i + 1..] else ""
  }

  /** The filter of `predefinedPublicKeys`. */
  predicate IsPubKeyFile(name: string)
  {
    LowerString(PathExtension(name)) == "pub"
  }

  /** A name made of a non-empty stem, a dot and a dot-free extension is a key
      file exactly when the extension is `pub` in any letter case. */
  lemma {:induction false} IsPubKeyFileByExtension(stem: string, ext: string)
    requires stem != "" && '.' !in ext
    ensures IsPubKeyFile(stem + "." + ext) <==> LowerString(ext) == "pub"
  {
    var name := stem + "." + ext;
    var i := LastIndexOf(name, '.');
    assert name[|stem|] == '.';
    assert name[|stem| + 1..] == ext;
  }

  /** The names in a listing that pass the filter, in listing order. */
  function PubKeyFiles(names: seq<string>): (r: seq<string>)
    ensures forall n :: n in r <==> n in names && IsPubKeyFile(n)
    decreases |names|
  {
    if |names| == 0 then []
    else
      assert names == [names[0]] + names[1..];
      (if IsPubKeyFile(names[0]) then [names[0]] else []) + PubKeyFiles(names[1..])
  }

  /** `predefinedPublicKeys()`: the `.pub` files of the shared `ssh` folder,
      nothing when the folder cannot be listed. */
  function PredefinedPublicKeys(listing: Option<seq<string>>): (urls: seq<string>)
    ensures listing.None? ==> urls == []
    ensures listing.Some? ==> forall n :: SharedKeyFolder + "/" + n in urls <==> n in listing.value && IsPubKeyFile(n)
  {
    match listing
    case None => []
    case Some(names) =>
      var files := PubKeyFiles(names);
      var urls := seq(|files|, k requires 0 <= k < |files| => SharedKeyFolder + "/" + files[k]);
      assert forall n :: SharedKeyFolder + "/" + n in urls <==> n in files by {
        forall n
          ensures SharedKeyFolder + "/" + n in urls <==> n in files
        {
          if SharedKeyFolder + "/" + n in urls {
            var k :| 0 <= k < |urls| && urls[k] == SharedKeyFolder + "/" + n;
            PrefixCancel(SharedKeyFolder + "/", n, files[k]);
          }
          if n in files {
            var k :| 0 <= k < |files| && files[k] == n;
            assert urls[k] == SharedKeyFolder + "/" + n;
          }
        }
      }
      urls
  }

  lemma {:induction false} PrefixCancel(prefix: string, a: string, b: string)
    requires prefix + a == prefix + b
    ensures a == b
  {
    assert a == (prefix + a)[|prefix|..];
    assert b == (prefix + b)[|prefix|..];
  }

  /** The file system the hook reads and writes. */
  class Disk {
    var files: Files

    constructor (files: Files)
      ensures this.files == files
    {
      this.files := files;
    }
  }

  /** `PrepareSSH.run()`: `spotlight` is what the Spotlight query found,
      `listing` the contents of the shared `ssh` folder (nothing when it cannot
      be listed) and `writable` whether the final write succeeds. Only
      `authorized_keys` changes, and only when the write succeeds. */
  method Run(disk: Disk, home: string, spotlight: seq<string>, listing: Option<seq<string>>, writable: bool)
    returns (outcome: HookOutcome)
    modifies disk
    ensures writable ==> (outcome == Finished && disk.files ==
      old(disk.files)[AuthorizedKeysPath(home) :=
        AuthorizedKeys(Collected(old(disk.files), home, spotlight + PredefinedPublicKeys(listing)))])
    ensures !writable ==> outcome == Threw(WriteFailed) && disk.files == old(disk.files)
  {
    var urls := spotlight + PredefinedPublicKeys(listing);
    var authorizedKeys := AuthorizedKeysPath(home);
    var allKeys := PublicKeys(Read(disk.files, authorizedKeys)) + KeysIn(disk.files, urls);
    if !writable {
      return Threw(WriteFailed);
    }
    disk.files := disk.files[authorizedKeys := AuthorizedKeys(allKeys)];
    outcome := Finished;
  }
}

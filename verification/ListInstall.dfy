/**
 * Installation of signed block lists. SHA-256, ECDSA and JSON are arbitrary functions.
 * Any file operation may fail, because the power does or because it is refused: a write
 * may then leave any prefix of its bytes, a move does not happen.
 */
module ListInstall {
  import opened BitStreams
  import opened Common
  import opened Text
  import Base64Url

  type Bytes = seq<Byte>

  datatype Artifact = Artifact(filename: string, sha256: string)
  datatype Manifest = Manifest(version: string, artifacts: seq<Artifact>)
  datatype Envelope = Envelope(version: string, payload: string, signature: string, algorithm: string)

  datatype Crypto = Crypto(
    verify: (Bytes, Bytes) -> bool, parse: Bytes -> Option<Manifest>,
    hash: Bytes -> Bytes, unhex: string -> Option<Bytes>)

  /** What the server answers during one sync; None is a failed request. */
  datatype Server = Server(envelope: Option<Envelope>, fetch: string -> Option<Bytes>)

  /**
   * The file operation that fails: how many succeed before it, how much of a write it
   * leaves (None: what was there), and whether the power is gone or only the operation.
   */
  datatype Fault = Fault(after: nat, left: Option<nat>, fatal: bool)

  /** `Failed` is an exception before or between file operations, `FileError` one of a file operation. */
  datatype Outcome = Returned | Failed | FileError | PowerLost

  function Stopped(fault: Fault): Outcome {
    if fault.fatal then PowerLost else FileError
  }

  /** What a failing write leaves of its bytes. */
  function Torn(before: Option<string>, text: string, left: Option<nat>): Option<string> {
    if left.None? then before else Some(text[..Min(left.value, |text|)])
  }

  const LIST_SUFFIX := ".txt.gz"

  predicate IsList(name: string) {
    EndsWith(name, LIST_SUFFIX)
  }

  predicate SafeName(name: string) {
    IsList(name) && '/' !in name && '\\' !in name
  }

  /** Windows file names ignore case: two names are one file when they fold to the same key. */
  function FileKey(filename: string): string {
    Lower(filename)
  }

  function TempName(name: string): string {
    name + ".new"
  }

  lemma SafeIsList(filename: string)
    requires SafeName(filename)
    ensures IsList(FileKey(filename))
  {
    var key := FileKey(filename);
    var n := |filename| - |LIST_SUFFIX|;
    forall i | 0 <= i < |LIST_SUFFIX| ensures key[n..][i] == LIST_SUFFIX[i] {
      assert filename[n..][i] == LIST_SUFFIX[i];
    }
    assert key[n..] == LIST_SUFFIX;
  }

  lemma TempIsNoList(name: string)
    ensures !IsList(TempName(name)) && TempName(name) != name
  {
    var temp := TempName(name);
    assert temp[|temp| - 1] == 'w';
    if |temp| >= |LIST_SUFFIX| {
      assert temp[|temp| - |LIST_SUFFIX|..][|LIST_SUFFIX| - 1] == 'w';
    }
  }

  /** The bytes hash to what the artifact says. */
  predicate Matches(crypto: Crypto, a: Artifact, bytes: Bytes) {
    crypto.unhex(a.sha256) == Some(crypto.hash(bytes))
  }

  /** A manifest whose signature has been verified. */
  ghost predicate Signed(crypto: Crypto, m: Manifest) {
    exists payload, signature :: crypto.verify(payload, signature) && crypto.parse(payload) == Some(m)
  }

  /** Some signed manifest lists this file with this content. */
  ghost predicate Vouched(crypto: Crypto, name: string, bytes: Bytes) {
    exists m, a :: Signed(crypto, m) && a in m.artifacts && FileKey(a.filename) == name && Matches(crypto, a, bytes)
  }

  ghost predicate AllVouched(crypto: Crypto, files: map<string, Bytes>) {
    forall name | name in files && IsList(name) :: Vouched(crypto, name, files[name])
  }

  predicate Installed(crypto: Crypto, files: map<string, Bytes>, a: Artifact) {
    FileKey(a.filename) in files && Matches(crypto, a, files[FileKey(a.filename)])
  }

  predicate AllInstalled(crypto: Crypto, files: map<string, Bytes>, m: Manifest) {
    forall i | 0 <= i < |m.artifacts| :: Installed(crypto, files, m.artifacts[i])
  }

  predicate SameFile(a: Artifact, b: Artifact) {
    FileKey(a.filename) == FileKey(b.filename)
  }

  /** Entries for the same file, in whatever case they name it, agree on its hash. */
  predicate DuplicatesAgree(crypto: Crypto, artifacts: seq<Artifact>) {
    forall i, j | 0 <= i < |artifacts| && 0 <= j < |artifacts| && SameFile(artifacts[i], artifacts[j]) ::
      crypto.unhex(artifacts[i].sha256) == crypto.unhex(artifacts[j].sha256)
  }

  /** Entry i is the last one for its file among the first n. */
  predicate LastFor(artifacts: seq<Artifact>, i: nat, n: nat)
    requires i < n <= |artifacts|
  {
    forall j | i < j < n :: !SameFile(artifacts[j], artifacts[i])
  }

  /** Of the first n entries, each file has the content of its last entry. */
  predicate InstalledUpTo(crypto: Crypto, files: map<string, Bytes>, artifacts: seq<Artifact>, n: nat)
    requires n <= |artifacts|
  {
    forall i | 0 <= i < n && LastFor(artifacts, i, n) :: Installed(crypto, files, artifacts[i])
  }

  predicate AllLists(artifacts: seq<Artifact>, n: nat)
    requires n <= |artifacts|
  {
    forall i | 0 <= i < n :: IsList(FileKey(artifacts[i].filename))
  }

  lemma {:induction false} LastEntry(artifacts: seq<Artifact>, i: nat, n: nat) returns (k: nat)
    requires i < n <= |artifacts|
    ensures i <= k < n && SameFile(artifacts[k], artifacts[i]) && LastFor(artifacts, k, n)
    decreases n - i
  {
    if LastFor(artifacts, i, n) {
      k := i;
    } else {
      var j :| i < j < n && SameFile(artifacts[j], artifacts[i]);
      k := LastEntry(artifacts, j, n);
    }
  }

  /** A file has one content, so entries for it that are all installed agree. */
  lemma InstalledAgree(crypto: Crypto, files: map<string, Bytes>, m: Manifest)
    ensures AllInstalled(crypto, files, m) ==> DuplicatesAgree(crypto, m.artifacts)
  {
    if AllInstalled(crypto, files, m) {
      forall i, j | 0 <= i < |m.artifacts| && 0 <= j < |m.artifacts| && SameFile(m.artifacts[i], m.artifacts[j])
        ensures crypto.unhex(m.artifacts[i].sha256) == crypto.unhex(m.artifacts[j].sha256)
      {
        assert Installed(crypto, files, m.artifacts[i]) && Installed(crypto, files, m.artifacts[j]);
      }
    }
  }

  /** The entry is one that the loop installs: a safe name, and the server's file has its hash. */
  predicate Fits(a: Artifact, server: Server, crypto: Crypto) {
    SafeName(a.filename) && server.fetch(a.filename).Some? && Matches(crypto, a, server.fetch(a.filename).value)
  }

  predicate AllFit(artifacts: seq<Artifact>, server: Server, crypto: Crypto) {
    forall i | 0 <= i < |artifacts| :: Fits(artifacts[i], server, crypto)
  }

  lemma NamesAreSafe(artifacts: seq<Artifact>, server: Server, crypto: Crypto)
    requires AllFit(artifacts, server, crypto)
    ensures forall a | a in artifacts :: EndsWith(a.filename, ".txt.gz") && '/' !in a.filename && '\\' !in a.filename
  {
    forall a | a in artifacts ensures SafeName(a.filename) {
      var i :| 0 <= i < |artifacts| && artifacts[i] == a;
      assert Fits(artifacts[i], server, crypto);
    }
  }

  /** Entries with the very same name agree: the server has one file under it, which cannot have two hashes. */
  lemma OneNameOneHash(artifacts: seq<Artifact>, server: Server, crypto: Crypto, i: nat, j: nat)
    requires AllFit(artifacts, server, crypto) && i < |artifacts| && j < |artifacts|
    requires artifacts[i].filename == artifacts[j].filename
    ensures crypto.unhex(artifacts[i].sha256) == crypto.unhex(artifacts[j].sha256)
  {
    assert Fits(artifacts[i], server, crypto) && Fits(artifacts[j], server, crypto);
  }

  /** So what contradicts itself and is installed nevertheless names one file in two ways. */
  lemma OnlyTwinsDisagree(artifacts: seq<Artifact>, server: Server, crypto: Crypto) returns (i: nat, j: nat)
    requires AllFit(artifacts, server, crypto) && !DuplicatesAgree(crypto, artifacts)
    ensures i < |artifacts| && j < |artifacts|
    ensures SameFile(artifacts[i], artifacts[j]) && artifacts[i].filename != artifacts[j].filename
  {
    i, j :| 0 <= i < |artifacts| && 0 <= j < |artifacts| && SameFile(artifacts[i], artifacts[j])
            && crypto.unhex(artifacts[i].sha256) != crypto.unhex(artifacts[j].sha256);
    if artifacts[i].filename == artifacts[j].filename {
      OneNameOneHash(artifacts, server, crypto, i, j);
    }
  }

  function Twins(version: string, h1: string, h2: string): Manifest {
    Manifest(version, [Artifact("adult.txt.gz", h1), Artifact("Adult.txt.gz", h2)])
  }

  /** Two entries that differ only in the case of their name: whatever is on disk, at most one hash is right. */
  lemma TwinsDisagree(crypto: Crypto, files: map<string, Bytes>, h1: string, h2: string, version: string)
    requires crypto.unhex(h1) != crypto.unhex(h2)
    ensures !AllInstalled(crypto, files, Twins(version, h1, h2))
  {
    var m := Twins(version, h1, h2);
    TwinNames();
    assert SameFile(m.artifacts[0], m.artifacts[1]);
    InstalledAgree(crypto, files, m);
  }

  lemma TwinsFit(crypto: Crypto, server: Server, h1: string, h2: string, version: string, low: Bytes, high: Bytes)
    requires server.fetch("adult.txt.gz") == Some(low) && server.fetch("Adult.txt.gz") == Some(high)
    requires crypto.unhex(h1) == Some(crypto.hash(low)) && crypto.unhex(h2) == Some(crypto.hash(high))
    ensures AllFit(Twins(version, h1, h2).artifacts, server, crypto)
  {
    TwinNames();
  }

  lemma TwinNames()
    ensures SafeName("adult.txt.gz") && SafeName("Adult.txt.gz") && FileKey("adult.txt.gz") == FileKey("Adult.txt.gz")
  {
    assert "adult.txt.gz"[5..] == LIST_SUFFIX && "Adult.txt.gz"[5..] == LIST_SUFFIX;
  }

  /** Installing entries in order installs all of them exactly when duplicates agree. */
  lemma InOrderIsAll(crypto: Crypto, files: map<string, Bytes>, m: Manifest)
    requires InstalledUpTo(crypto, files, m.artifacts, |m.artifacts|)
    ensures AllInstalled(crypto, files, m) <==> DuplicatesAgree(crypto, m.artifacts)
  {
    if DuplicatesAgree(crypto, m.artifacts) {
      forall i | 0 <= i < |m.artifacts| ensures Installed(crypto, files, m.artifacts[i]) {
        var k := LastEntry(m.artifacts, i, |m.artifacts|);
        assert Installed(crypto, files, m.artifacts[k]);
      }
    }
    InstalledAgree(crypto, files, m);
  }

  lemma PutVouched(crypto: Crypto, files: map<string, Bytes>, m: Manifest, a: Artifact, bytes: Bytes)
    requires AllVouched(crypto, files) && Signed(crypto, m) && a in m.artifacts && Matches(crypto, a, bytes)
    ensures AllVouched(crypto, files[FileKey(a.filename) := bytes])
  {
    assert Vouched(crypto, FileKey(a.filename), bytes);
  }

  lemma PutTemp(crypto: Crypto, files: map<string, Bytes>, name: string, bytes: Bytes)
    requires AllVouched(crypto, files)
    ensures AllVouched(crypto, files[TempName(name) := bytes])
  {
    TempIsNoList(name);
  }

  lemma InstalledNext(crypto: Crypto, before: map<string, Bytes>, after: map<string, Bytes>, artifacts: seq<Artifact>, n: nat)
    requires n < |artifacts| && InstalledUpTo(crypto, before, artifacts, n)
    requires Installed(crypto, after, artifacts[n])
    requires forall name | IsList(name) && name in before && name != FileKey(artifacts[n].filename) :: name in after && after[name] == before[name]
    requires AllLists(artifacts, n)
    ensures InstalledUpTo(crypto, after, artifacts, n + 1)
  {
    forall i | 0 <= i < n + 1 && LastFor(artifacts, i, n + 1) ensures Installed(crypto, after, artifacts[i]) {
      if i < n {
        assert LastFor(artifacts, i, n);
        assert Installed(crypto, before, artifacts[i]);
        assert !SameFile(artifacts[n], artifacts[i]);
      }
    }
  }

  class ListStore {
    /** The files of the lists directory by folded name, the version marker, and how many file operations still succeed. */
    var files: map<string, Bytes>
    var marker: Option<string>
    var working: nat

    constructor ()
      ensures files == map[] && marker == None
    {
      files, marker, working := map[], None, 0;
    }

    /** One artifact: write beside the target, then move over it. */
    method Install(a: Artifact, bytes: Bytes, left: Option<nat>, ghost crypto: Crypto, ghost m: Manifest) returns (done: bool)
      requires SafeName(a.filename)
      requires AllVouched(crypto, files) && Signed(crypto, m) && a in m.artifacts && Matches(crypto, a, bytes)
      modifies this`files, this`working
      ensures AllVouched(crypto, files)
      ensures done <==> old(working) >= 2
      ensures done ==> TempName(FileKey(a.filename)) !in files
      ensures done ==> working == old(working) - 2 && FileKey(a.filename) in files && files[FileKey(a.filename)] == bytes
      ensures forall name | name != FileKey(a.filename) && name != TempName(FileKey(a.filename)) ::
                (name in files <==> name in old(files)) && (name in files ==> files[name] == old(files)[name])
    {
      var target := FileKey(a.filename);
      var temp := TempName(target);
      TempIsNoList(target);
      if working == 0 {
        if left.Some? { files := files[temp := bytes[..Min(left.value, |bytes|)]]; }
        return false;
      }
      files := files[temp := bytes];
      working := working - 1;
      PutTemp(crypto, old(files), target, bytes);
      if working == 0 { return false; }
      PutVouched(crypto, files, m, a, bytes);
      files := files[target := files[temp]] - {temp};
      working := working - 1;
      return true;
    }

    /** The body of the loop over the manifest: check the name, fetch, compare hashes, install. */
    method InstallEntry(m: Manifest, i: nat, server: Server, fault: Fault, crypto: Crypto) returns (outcome: Outcome)
      requires AllVouched(crypto, files) && Signed(crypto, m)
      requires i < |m.artifacts| && InstalledUpTo(crypto, files, m.artifacts, i) && AllLists(m.artifacts, i)
      modifies this`files, this`working
      ensures AllVouched(crypto, files)
      ensures outcome == Returned ==> InstalledUpTo(crypto, files, m.artifacts, i + 1) && AllLists(m.artifacts, i + 1)
      ensures outcome == Returned ==> working == old(working) - 2
      ensures outcome == if !Fits(m.artifacts[i], server, crypto) then Failed
                         else if old(working) < 2 then Stopped(fault) else Returned
    {
      var a := m.artifacts[i];
      if !SafeName(a.filename) { return Failed; }
      var bytes := server.fetch(a.filename);
      if bytes.None? { return Failed; }
      var expected := crypto.unhex(a.sha256);
      if expected.None? || crypto.hash(bytes.value) != expected.value { return Failed; }
      ghost var before := files;
      TempIsNoList(FileKey(a.filename));
      SafeIsList(a.filename);
      var done := Install(a, bytes.value, fault.left, crypto, m);
      if !done { return Stopped(fault); }
      InstalledNext(crypto, before, files, m.artifacts, i);
      return Returned;
    }

    /** The loop over the manifest. */
    method InstallAll(m: Manifest, server: Server, fault: Fault, crypto: Crypto) returns (outcome: Outcome)
      requires AllVouched(crypto, files) && Signed(crypto, m)
      modifies this`files, this`working
      ensures AllVouched(crypto, files)
      ensures outcome == Returned ==> InstalledUpTo(crypto, files, m.artifacts, |m.artifacts|)
      ensures outcome == Returned <==> AllFit(m.artifacts, server, crypto) && old(working) >= 2 * |m.artifacts|
      ensures outcome == Returned ==> working == old(working) - 2 * |m.artifacts|
      ensures outcome == Returned || outcome == Stopped(fault) || (outcome == Failed && !AllFit(m.artifacts, server, crypto))
    {
      for i := 0 to |m.artifacts|
        invariant AllVouched(crypto, files)
        invariant InstalledUpTo(crypto, files, m.artifacts, i) && AllLists(m.artifacts, i)
        invariant forall j | 0 <= j < i :: Fits(m.artifacts[j], server, crypto)
        invariant working == old(working) - 2 * i
      {
        outcome := InstallEntry(m, i, server, fault, crypto);
        if outcome != Returned { return; }
      }
      return Returned;
    }

    /** Decode, verify and parse the manifest; None is an exception. */
    method ReadManifest(envelope: Envelope, expected: string, crypto: Crypto) returns (m: Option<Manifest>)
      ensures m == SignedManifest(envelope, expected, crypto)
      ensures m.Some? ==> Signed(crypto, m.value) && m.value.version == expected
      ensures m.Some? ==> envelope.version == expected && envelope.algorithm == "ES256"
    {
      if envelope.version != expected || envelope.algorithm != "ES256" { return None; }
      var payload := Base64Url.FromBase64String(Base64Url.PadBase64(Base64Url.ToStdLetters(envelope.payload)));
      var signature := Base64Url.FromBase64String(Base64Url.PadBase64(Base64Url.ToStdLetters(envelope.signature)));
      if payload.None? || signature.None? { return None; }
      if !crypto.verify(payload.value, signature.value) { return None; }
      var manifest := crypto.parse(payload.value);
      if manifest.None? || manifest.value.version != expected { return None; }
      return manifest;
    }

    /**
     * SyncAsync. However it ends, every list on disk is a whole artifact that a signed
     * manifest vouches for. It returns after a download exactly when the server offers a
     * manifest and files that fit, and no file operation fails; the marker is then the
     * expected version, and every artifact is installed exactly when the manifest does
     * not contradict itself.
     */
    method Sync(expected: string, server: Server, crypto: Crypto, fault: Fault) returns (outcome: Outcome)
      requires AllVouched(crypto, files)
      modifies this
      ensures AllVouched(crypto, files)
      ensures old(marker) == Some(expected) ==> outcome == Returned && files == old(files) && marker == old(marker)
      ensures old(marker) != Some(expected) ==> (outcome == Returned <==> Offers(server, expected, crypto) && EnoughFor(fault, server, expected, crypto))
      ensures outcome == Returned ==> marker == Some(expected)
      ensures outcome == Returned && old(marker) != Some(expected) ==>
                var m := ManifestOf(server, expected, crypto).value;
                Signed(crypto, m) && m.version == expected
                && (AllInstalled(crypto, files, m) <==> DuplicatesAgree(crypto, m.artifacts))
                && forall a | a in m.artifacts :: EndsWith(a.filename, ".txt.gz") && '/' !in a.filename && '\\' !in a.filename
      ensures outcome == Returned || outcome == Stopped(fault) || (outcome == Failed && !Offers(server, expected, crypto))
      ensures outcome == Failed ==> marker == old(marker)
      ensures marker == old(marker) || marker == Some(expected) || marker == Torn(old(marker), expected, fault.left)
    {
      working := fault.after;
      if marker == Some(expected) { return Returned; }
      if server.envelope.None? { return Failed; }
      var manifest := ReadManifest(server.envelope.value, expected, crypto);
      if manifest.None? { return Failed; }
      outcome := InstallAll(manifest.value, server, fault, crypto);
      if outcome != Returned { return; }
      InOrderIsAll(crypto, files, manifest.value);
      NamesAreSafe(manifest.value.artifacts, server, crypto);
      if working == 0 {
        marker := Torn(marker, expected, fault.left);
        return Stopped(fault);
      }
      marker := Some(expected);
    }
  }

  /** The manifest that the server offers and the agent accepts. */
  function ManifestOf(server: Server, expected: string, crypto: Crypto): Option<Manifest> {
    if server.envelope.None? then None else SignedManifest(server.envelope.value, expected, crypto)
  }

  predicate Offers(server: Server, expected: string, crypto: Crypto) {
    var m := ManifestOf(server, expected, crypto);
    m.Some? && AllFit(m.value.artifacts, server, crypto)
  }

  /** A write and a move for each artifact, and the marker. */
  predicate EnoughFor(fault: Fault, server: Server, expected: string, crypto: Crypto)
    requires ManifestOf(server, expected, crypto).Some?
  {
    fault.after > 2 * |ManifestOf(server, expected, crypto).value.artifacts|
  }

  /** The manifest that the agent accepts from an envelope. */
  function SignedManifest(envelope: Envelope, expected: string, crypto: Crypto): Option<Manifest> {
    var payload := Base64Url.FromBase64String(Base64Url.PadBase64(Base64Url.ToStdLetters(envelope.payload)));
    var signature := Base64Url.FromBase64String(Base64Url.PadBase64(Base64Url.ToStdLetters(envelope.signature)));
    if envelope.version != expected || envelope.algorithm != "ES256" || payload.None? || signature.None? then None
    else if !crypto.verify(payload.value, signature.value) then None
    else
      match crypto.parse(payload.value)
      case None => None
      case Some(m) => if m.version == expected then Some(m) else None
  }

  /** The compiler's envelope of a manifest, in URL-safe Base64. */
  function Sealed(version: string, payload: Bytes, signature: Bytes): Envelope {
    Envelope(version, Base64Url.ToBase64Url(payload), Base64Url.ToBase64Url(signature), "ES256")
  }

  /** What the compiler signs, the agent accepts: exactly that manifest, through both Base64 conventions. */
  lemma SealedIsAccepted(version: string, payload: Bytes, signature: Bytes, m: Manifest, crypto: Crypto)
    requires crypto.verify(payload, signature) && crypto.parse(payload) == Some(m) && m.version == version
    ensures SignedManifest(Sealed(version, payload, signature), version, crypto) == Some(m)
  {
    Base64Url.AgentReadsUrlText(payload);
    Base64Url.AgentReadsUrlText(signature);
  }

  /** A list that was whole and vouched for before a run of syncs is so after it: Sync's contract, repeated. */
  method SyncRepeatedly(store: ListStore, requests: seq<(string, Server, Fault)>, crypto: Crypto)
    requires AllVouched(crypto, store.files)
    modifies store
    ensures AllVouched(crypto, store.files)
  {
    for i := 0 to |requests|
      invariant AllVouched(crypto, store.files)
    {
      var outcome := store.Sync(requests[i].0, requests[i].1, crypto, requests[i].2);
    }
  }

  /**
   * The run that goes wrong: a signed manifest with case twins, each of them served with
   * its own hash, and no fault on the way. The sync returns and sets the marker, so the
   * next one does nothing, and one of the two lists is not there.
   */
  method CaseTwins(store: ListStore, version: string, server: Server, crypto: Crypto, fault: Fault,
                   h1: string, h2: string, low: Bytes, high: Bytes) returns (outcome: Outcome, again: Outcome)
    requires AllVouched(crypto, store.files) && store.marker != Some(version) && fault.after > 4
    requires ManifestOf(server, version, crypto) == Some(Twins(version, h1, h2))
    requires server.fetch("adult.txt.gz") == Some(low) && server.fetch("Adult.txt.gz") == Some(high)
    requires crypto.unhex(h1) == Some(crypto.hash(low)) && crypto.unhex(h2) == Some(crypto.hash(high))
    requires crypto.hash(low) != crypto.hash(high)
    modifies store
    ensures outcome == again == Returned && store.marker == Some(version)
    ensures !AllInstalled(crypto, store.files, Twins(version, h1, h2))
  {
    TwinsFit(crypto, server, h1, h2, version, low, high);
    outcome := store.Sync(version, server, crypto, fault);
    again := store.Sync(version, server, crypto, fault);
    TwinsDisagree(crypto, store.files, h1, h2, version);
  }
}

/** The evidence directory one stage writes and the next stage verifies: the
    worker's bundle checked by the reviewer, the reviewer's by the QA coordinator. */
module EvidenceBundle {
  import opened Basics

  type Bytes = seq<bv8>

  // ---- files ----

  datatype Node = Regular(data: Bytes) | Link(target: string) | Subdirectory
  type Dir = map<string, Node>
  datatype Place = Directory(entries: Dir) | NotADirectory

  predicate IsRegular(d: Dir, name: string) { name in d && d[name].Regular? }

  /** Names of the entries with is_file() and not is_symlink(). */
  function Regulars(d: Dir): set<string> {
    set name | name in d && d[name].Regular?
  }

  function Contents(d: Dir): map<string, Bytes> {
    map name | name in d && d[name].Regular? :: d[name].data
  }

  /** PurePosixPath(name).name == name */
  predicate PlainName(name: string) { '/' !in name && name != "." }

  // ---- documents ----

  datatype Scalar = Str(text: string) | Num(value: int) | Bool(truth: bool) | Null | Compound
  type Document = map<string, Scalar>

  /** value == n, where Python's True equals 1. */
  predicate NumberIs(v: Scalar, n: nat) {
    v == Num(n) || (v == Bool(true) && n == 1) || (v == Bool(false) && n == 0)
  }

  predicate Field(d: Document, key: string, v: Scalar) { key in d && d[key] == v }

  predicate SchemaOne(d: Document) { "schema_version" in d && NumberIs(d["schema_version"], 1) }

  datatype Meta = Meta(sha256: Scalar, bytes: Scalar) | NotAnObject
  datatype Manifest = Manifest(version: Scalar, files: map<string, Meta>)

  /** `OtherJson`: well-formed, but not of the required shape. */
  datatype Parsed<T> = NotJson | OtherJson | Parsed(value: T)

  /** SHA-256 and the JSON library. */
  datatype Codec = Codec(
    digest: Bytes -> string,
    encodeDocument: Document -> Bytes, decodeDocument: Bytes -> Parsed<Document>,
    encodeManifest: Manifest -> Bytes, decodeManifest: Bytes -> Parsed<Manifest>)

  ghost predicate RoundTrips(c: Codec) {
    && (forall d :: c.decodeDocument(c.encodeDocument(d)) == Parsed(d))
    && (forall m :: c.decodeManifest(c.encodeManifest(m)) == Parsed(m))
  }

  ghost predicate Injective(c: Codec) {
    forall a, b :: c.digest(a) == c.digest(b) ==> a == b
  }

  // ---- writing ----

  const MANIFEST := "manifest.json"

  function ManifestOf(c: Codec, files: map<string, Bytes>): Manifest {
    Manifest(Num(1), map name | name in files :: Meta(Str(c.digest(files[name])), Num(|files[name]|)))
  }

  function Listing(files: map<string, Bytes>): Dir {
    map name | name in files :: Regular(files[name])
  }

  /** A directory with these files and their manifest. */
  function Bundle(c: Codec, files: map<string, Bytes>): Dir {
    Listing(files)[MANIFEST := Regular(c.encodeManifest(ManifestOf(c, files)))]
  }

  function ManifestAnchor(c: Codec, files: map<string, Bytes>): string {
    c.digest(c.encodeManifest(ManifestOf(c, files)))
  }

  predicate FilesOk(files: map<string, Bytes>) {
    MANIFEST !in files && forall name :: name in files ==> PlainName(name)
  }

  const EVIDENCE := "review-evidence.json"
  const DIFF := "reconstructed.diff"
  const MODEL := "review-model.json"

  function Adding(files: map<string, Bytes>, name: string, data: Option<Bytes>): map<string, Bytes> {
    if data.Some? then files[name := data.value] else files
  }

  function ReviewFiles(c: Codec, evidence: Document, diff: Option<Bytes>, model: Option<Bytes>): map<string, Bytes> {
    Adding(Adding(map[], DIFF, diff), MODEL, model)[EVIDENCE := c.encodeDocument(evidence)]
  }

  /** The files dictionary of the manifest, computed from what is in the directory. */
  function Listed(c: Codec, d: Dir): map<string, Meta> {
    map name | name in d && d[name].Regular? :: Meta(Str(c.digest(d[name].data)), Num(|d[name].data|))
  }

  lemma ListedIsManifest(c: Codec, files: map<string, Bytes>)
    ensures Manifest(Num(1), Listed(c, Listing(files))) == ManifestOf(c, files)
  {}

  method WriteFile(d: Dir, name: string, data: Bytes, ghost files: map<string, Bytes>) returns (d': Dir)
    requires d == Listing(files)
    ensures d' == Listing(files[name := data])
  {
    d' := d[name := Regular(data)];
  }

  /** Writes the files one by one into a new directory, then lists what is there. */
  method WriteReviewBundle(c: Codec, evidence: Document, diff: Option<Bytes>, model: Option<Bytes>)
    returns (d: Dir, evidenceSha: string, manifestSha: string)
    ensures d == Bundle(c, ReviewFiles(c, evidence, diff, model))
    ensures evidenceSha == c.digest(c.encodeDocument(evidence))
    ensures manifestSha == ManifestAnchor(c, ReviewFiles(c, evidence, diff, model))
  {
    d := map[];
    ghost var files: map<string, Bytes> := map[];
    assert d == Listing(files);
    if diff.Some? { d := WriteFile(d, DIFF, diff.value, files); }
    files := Adding(files, DIFF, diff);
    if model.Some? { d := WriteFile(d, MODEL, model.value, files); }
    files := Adding(files, MODEL, model);
    d := WriteFile(d, EVIDENCE, c.encodeDocument(evidence), files);
    files := files[EVIDENCE := c.encodeDocument(evidence)];
    ListedIsManifest(c, files);
    evidenceSha := c.digest(d[EVIDENCE].data);
    d := d[MANIFEST := Regular(c.encodeManifest(Manifest(Num(1), Listed(c, d))))];
    manifestSha := c.digest(d[MANIFEST].data);
  }

  // ---- verifying ----

  predicate FileMatches(c: Codec, d: Dir, name: string, meta: Meta) {
    && PlainName(name) && meta.Meta? && IsRegular(d, name)
    && meta.sha256 == Str(c.digest(d[name].data)) && NumberIs(meta.bytes, |d[name].data|)
  }

  /** The file-set check and the per-file checks both verifiers make. */
  predicate Intact(c: Codec, d: Dir, m: Manifest) {
    && Regulars(d) == m.files.Keys + {MANIFEST}
    && forall name :: name in m.files ==> FileMatches(c, d, name, m.files[name])
  }

  /** The loop over the manifest entries. */
  method CheckFiles(c: Codec, d: Dir, m: Manifest) returns (ok: bool)
    ensures ok <==> Intact(c, d, m)
  {
    if Regulars(d) != m.files.Keys + {MANIFEST} { return false; }
    var left := m.files.Keys;
    while left != {}
      invariant left <= m.files.Keys
      invariant forall name :: name in m.files && name !in left ==> FileMatches(c, d, name, m.files[name])
      decreases |left|
    {
      var name :| name in left;
      if !FileMatches(c, d, name, m.files[name]) { return false; }
      left := left - {name};
    }
    return true;
  }

  datatype ReviewPayload = ReviewPayload(
    evidenceSha: string, manifestSha: string, reviewJob: string, base: string, head: string, branch: string)

  /** `Rejected`: an integrity error. `Errored`: any other exception. */
  datatype Outcome<T> = Accepted(value: T) | Rejected | Errored

  /** What the coordinator wants the evidence to say. */
  predicate Approves(c: Codec, evidence: Document, p: ReviewPayload, diff: Bytes) {
    && SchemaOne(evidence) && Field(evidence, "job_id", Str(p.reviewJob))
    && Field(evidence, "verdict", Str("approve")) && Field(evidence, "integrity_verified", Bool(true))
    && Field(evidence, "promotion_authorized", Bool(false)) && Field(evidence, "next_stage", Str("B034 adversarial QA"))
    && Field(evidence, "base_commit", Str(p.base)) && Field(evidence, "head_commit", Str(p.head))
    && Field(evidence, "branch", Str(p.branch))
    && Field(evidence, "reconstructed_diff_sha256", Str(c.digest(diff)))
  }

  function VerifyReview(c: Codec, place: Place, p: ReviewPayload, maximum: nat): Outcome<(Document, Bytes)> {
    if place.NotADirectory? then Rejected
    else
      var d := place.entries;
      if !IsRegular(d, EVIDENCE) || !IsRegular(d, MANIFEST) then Rejected
      else
        var evidenceBytes, manifestBytes := d[EVIDENCE].data, d[MANIFEST].data;
        if |evidenceBytes| + |manifestBytes| > maximum then Rejected
        else if c.digest(evidenceBytes) != p.evidenceSha || c.digest(manifestBytes) != p.manifestSha then Rejected
        else
          var evidence, manifest := c.decodeDocument(evidenceBytes), c.decodeManifest(manifestBytes);
          if !manifest.Parsed? || !NumberIs(manifest.value.version, 1) || !Intact(c, d, manifest.value) then Rejected
          else if !evidence.Parsed? || !IsRegular(d, DIFF) then Rejected
          else
            var diff := d[DIFF].data;
            if |diff| > maximum || !Approves(c, evidence.value, p, diff) then Rejected
            else Accepted((evidence.value, diff))
  }

  const WORK := "implementation-evidence.json"
  const PATCH := "model.patch"

  datatype WorkPayload = WorkPayload(evidenceSha: string, manifestSha: string)

  const MAX_JOB_BYTES: nat := 1024 * 1024

  predicate HandsOver(evidence: Document) {
    && SchemaOne(evidence) && Field(evidence, "promotion_authorized", Bool(false))
    && Field(evidence, "next_stage", Str("B033 independent reviewer"))
  }

  /** verify_manifest: the reviewer's check of the worker's bundle. */
  function VerifyWork(c: Codec, place: Place, p: WorkPayload): Outcome<(Manifest, Document)> {
    if place.NotADirectory? then Rejected
    else
      var d := place.entries;
      if !IsRegular(d, MANIFEST) || !IsRegular(d, WORK) then Rejected
      else
        var evidenceBytes, manifestBytes := d[WORK].data, d[MANIFEST].data;
        if c.digest(manifestBytes) != p.manifestSha || c.digest(evidenceBytes) != p.evidenceSha then Rejected
        else if |manifestBytes| > MAX_JOB_BYTES || |evidenceBytes| > MAX_JOB_BYTES then Errored
        else
          var evidence, manifest := c.decodeDocument(evidenceBytes), c.decodeManifest(manifestBytes);
          if evidence.NotJson? || manifest.NotJson? then Errored
          else if !manifest.Parsed? || !NumberIs(manifest.value.version, 1) then Rejected
          else if !({WORK, PATCH} <= manifest.value.files.Keys) then Rejected
          else if !Intact(c, d, manifest.value) then Rejected
          else if !evidence.Parsed? || !HandsOver(evidence.value) then Rejected
          else Accepted((manifest.value, evidence.value))
  }

  // ---- what was written is intact, and only that ----

  lemma BundleIsIntact(c: Codec, files: map<string, Bytes>)
    requires FilesOk(files)
    ensures Intact(c, Bundle(c, files), ManifestOf(c, files))
  {}

  /** Any directory that is intact under the written manifest has exactly the written regular files. */
  lemma IntactIsIdentical(c: Codec, files: map<string, Bytes>, d: Dir)
    requires Injective(c) && FilesOk(files) && Intact(c, d, ManifestOf(c, files))
    requires IsRegular(d, MANIFEST) && d[MANIFEST].data == c.encodeManifest(ManifestOf(c, files))
    ensures Contents(d) == Contents(Bundle(c, files))
  {}

  // ---- the hand-off from the reviewer to QA ----

  function ReviewAnchors(c: Codec, p: ReviewPayload, evidence: Document, diff: Option<Bytes>,
                         model: Option<Bytes>): ReviewPayload {
    p.(evidenceSha := c.digest(c.encodeDocument(evidence)),
       manifestSha := ManifestAnchor(c, ReviewFiles(c, evidence, diff, model)))
  }

  lemma ReviewFilesAre(c: Codec, evidence: Document, diff: Option<Bytes>, model: Option<Bytes>)
    ensures var files := ReviewFiles(c, evidence, diff, model);
            && FilesOk(files) && EVIDENCE in files && files[EVIDENCE] == c.encodeDocument(evidence)
            && (DIFF in files <==> diff.Some?) && (diff.Some? ==> files[DIFF] == diff.value)
            && EVIDENCE != MANIFEST && DIFF != MANIFEST
  {
    assert |EVIDENCE| == 20 && |DIFF| == 18 && |MODEL| == 17 && |MANIFEST| == 13;
  }

  /** A written review bundle passes the next stage exactly when it carries a
      diff, approves it, and is within the size budgets. */
  lemma WrittenReviewPasses(c: Codec, p: ReviewPayload, evidence: Document, diff: Option<Bytes>, model: Option<Bytes>,
                            maximum: nat)
    requires RoundTrips(c)
    ensures var files := ReviewFiles(c, evidence, diff, model);
            var outcome := VerifyReview(c, Directory(Bundle(c, files)), ReviewAnchors(c, p, evidence, diff, model),
                                        maximum);
            if diff.Some? && Approves(c, evidence, p, diff.value) && |diff.value| <= maximum
               && |c.encodeDocument(evidence)| + |c.encodeManifest(ManifestOf(c, files))| <= maximum
            then outcome == Accepted((evidence, diff.value)) else outcome == Rejected
  {
    var files := ReviewFiles(c, evidence, diff, model);
    ReviewFilesAre(c, evidence, diff, model);
    BundleIsIntact(c, files);
    FilesPass(c, ReviewAnchors(c, p, evidence, diff, model), evidence, files, maximum);
    if diff.Some? { ApprovesFrame(c, evidence, p, ReviewAnchors(c, p, evidence, diff, model), diff.value); }
  }

  lemma ApprovesFrame(c: Codec, evidence: Document, p: ReviewPayload, p': ReviewPayload, diff: Bytes)
    requires p'.reviewJob == p.reviewJob && p'.base == p.base && p'.head == p.head && p'.branch == p.branch
    ensures Approves(c, evidence, p, diff) <==> Approves(c, evidence, p', diff)
  {}

  /** What the verifier says about an intact bundle with the right anchors. */
  lemma FilesPass(c: Codec, p: ReviewPayload, evidence: Document, files: map<string, Bytes>, maximum: nat)
    requires RoundTrips(c) && Intact(c, Bundle(c, files), ManifestOf(c, files)) && EVIDENCE != MANIFEST
        && DIFF != MANIFEST
    requires EVIDENCE in files && files[EVIDENCE] == c.encodeDocument(evidence)
    requires p.evidenceSha == c.digest(files[EVIDENCE]) && p.manifestSha == ManifestAnchor(c, files)
    ensures VerifyReview(c, Directory(Bundle(c, files)), p, maximum) ==
              if DIFF in files && Approves(c, evidence, p, files[DIFF]) && |files[DIFF]| <= maximum
                 && |files[EVIDENCE]| + |c.encodeManifest(ManifestOf(c, files))| <= maximum
              then Accepted((evidence, files[DIFF])) else Rejected
  {
    var d := Bundle(c, files);
    assert d[EVIDENCE] == Regular(files[EVIDENCE]);
    assert d[MANIFEST] == Regular(c.encodeManifest(ManifestOf(c, files)));
    assert IsRegular(d, DIFF) <==> DIFF in files;
    assert DIFF in files ==> d[DIFF] == Regular(files[DIFF]);
  }

  /** Whatever directory is accepted under the anchors of a written bundle has
      byte for byte the regular files that were written, and yields the evidence
      and the diff that were written. */
  lemma AcceptedReviewIsWritten(c: Codec, p: ReviewPayload, evidence: Document, diff: Option<Bytes>,
                                model: Option<Bytes>, place: Place, maximum: nat)
    requires RoundTrips(c) && Injective(c)
    requires VerifyReview(c, place, ReviewAnchors(c, p, evidence, diff, model), maximum).Accepted?
    ensures Contents(place.entries) == Contents(Bundle(c, ReviewFiles(c, evidence, diff, model)))
    ensures diff.Some? && VerifyReview(c, place, ReviewAnchors(c, p, evidence, diff, model), maximum)
        == Accepted((evidence, diff.value))
  {
    var files := ReviewFiles(c, evidence, diff, model);
    ReviewFilesAre(c, evidence, diff, model);
    FilesAreWritten(c, ReviewAnchors(c, p, evidence, diff, model), evidence, files, place, maximum);
  }

  lemma FilesAreWritten(c: Codec, p: ReviewPayload, evidence: Document, files: map<string, Bytes>, place: Place,
                        maximum: nat)
    requires RoundTrips(c) && Injective(c) && FilesOk(files) && EVIDENCE != MANIFEST && DIFF != MANIFEST
    requires p.evidenceSha == c.digest(c.encodeDocument(evidence)) && p.manifestSha == ManifestAnchor(c, files)
    requires VerifyReview(c, place, p, maximum).Accepted?
    ensures Contents(place.entries) == Contents(Bundle(c, files))
    ensures DIFF in files && VerifyReview(c, place, p, maximum) == Accepted((evidence, files[DIFF]))
  {
    var d := place.entries;
    assert d[MANIFEST].data == c.encodeManifest(ManifestOf(c, files));
    assert d[EVIDENCE].data == c.encodeDocument(evidence);
    IntactIsIdentical(c, files, d);
    assert DIFF in Contents(d) && Contents(d)[DIFF] == d[DIFF].data;
    assert DIFF in Contents(Bundle(c, files));
  }

  // ---- the hand-off from the worker to the reviewer ----

  /** The worker's files: its evidence, the patch and the test logs. */
  function WorkFiles(c: Codec, evidence: Document, patch: Bytes, logs: map<string, Bytes>): map<string, Bytes> {
    logs[PATCH := patch][WORK := c.encodeDocument(evidence)]
  }

  function WorkAnchors(c: Codec, evidence: Document, patch: Bytes, logs: map<string, Bytes>): WorkPayload {
    WorkPayload(c.digest(c.encodeDocument(evidence)), ManifestAnchor(c, WorkFiles(c, evidence, patch, logs)))
  }

  lemma WorkFilesAre(c: Codec, evidence: Document, patch: Bytes, logs: map<string, Bytes>)
    requires FilesOk(logs)
    ensures var files := WorkFiles(c, evidence, patch, logs);
            FilesOk(files) && {WORK, PATCH} <= files.Keys && files[WORK] == c.encodeDocument(evidence)
                && WORK != MANIFEST
  {}

  /** A written work bundle passes the reviewer exactly when it hands over and
      is small enough; too large a document is an error, not an integrity finding. */
  lemma WrittenWorkPasses(c: Codec, evidence: Document, patch: Bytes, logs: map<string, Bytes>)
    requires RoundTrips(c) && FilesOk(logs)
    ensures var files := WorkFiles(c, evidence, patch, logs);
            var outcome := VerifyWork(c, Directory(Bundle(c, files)), WorkAnchors(c, evidence, patch, logs));
            if |c.encodeDocument(evidence)| > MAX_JOB_BYTES || |c.encodeManifest(ManifestOf(c, files))| > MAX_JOB_BYTES
            then outcome == Errored
            else if HandsOver(evidence) then outcome == Accepted((ManifestOf(c, files), evidence))
            else outcome == Rejected
  {
    var files := WorkFiles(c, evidence, patch, logs);
    WorkFilesAre(c, evidence, patch, logs);
    BundleIsIntact(c, files);
    var d := Bundle(c, files);
    assert d[WORK] == Regular(files[WORK]) && d[MANIFEST] == Regular(c.encodeManifest(ManifestOf(c, files)));
  }

  /** And any directory the reviewer accepts under its anchors has byte for byte
      the regular files the worker wrote. */
  lemma AcceptedWorkIsWritten(c: Codec, evidence: Document, patch: Bytes, logs: map<string, Bytes>, place: Place)
    requires RoundTrips(c) && Injective(c) && FilesOk(logs)
    requires VerifyWork(c, place, WorkAnchors(c, evidence, patch, logs)).Accepted?
    ensures Contents(place.entries) == Contents(Bundle(c, WorkFiles(c, evidence, patch, logs)))
    ensures VerifyWork(c, place, WorkAnchors(c, evidence, patch, logs)) ==
              Accepted((ManifestOf(c, WorkFiles(c, evidence, patch, logs)), evidence))
  {
    var files, d := WorkFiles(c, evidence, patch, logs), place.entries;
    WorkFilesAre(c, evidence, patch, logs);
    assert d[MANIFEST].data == c.encodeManifest(ManifestOf(c, files));
    assert d[WORK].data == c.encodeDocument(evidence);
    IntactIsIdentical(c, files, d);
  }

  // ---- only regular files count ----

  lemma ContentsTell(d: Dir, d': Dir, name: string)
    requires Contents(d) == Contents(d')
    ensures IsRegular(d, name) <==> IsRegular(d', name)
    ensures IsRegular(d, name) ==> d[name].data == d'[name].data
  {
    assert IsRegular(d, name) <==> name in Contents(d);
    assert IsRegular(d', name) <==> name in Contents(d');
    if IsRegular(d, name) { assert Contents(d)[name] == Contents(d')[name]; }
  }

  lemma IntactTells(c: Codec, d: Dir, d': Dir, m: Manifest)
    requires Contents(d) == Contents(d')
    ensures Intact(c, d, m) <==> Intact(c, d', m)
  {
    assert Regulars(d) == Contents(d).Keys && Regulars(d') == Contents(d').Keys;
    forall name | name in m.files
      ensures FileMatches(c, d, name, m.files[name]) <==> FileMatches(c, d', name, m.files[name])
    {
      ContentsTell(d, d', name);
    }
  }

  /** Both verifiers look at regular files only: links and subdirectories may come
      and go under names that are not those of regular files. */
  lemma OnlyRegularFilesCount(c: Codec, d: Dir, d': Dir, p: ReviewPayload, maximum: nat, w: WorkPayload)
    requires Contents(d) == Contents(d')
    ensures VerifyReview(c, Directory(d), p, maximum) == VerifyReview(c, Directory(d'), p, maximum)
    ensures VerifyWork(c, Directory(d), w) == VerifyWork(c, Directory(d'), w)
  {
    ContentsTell(d, d', EVIDENCE);
    ContentsTell(d, d', MANIFEST);
    ContentsTell(d, d', DIFF);
    ContentsTell(d, d', WORK);
    if IsRegular(d, MANIFEST) && c.decodeManifest(d[MANIFEST].data).Parsed? {
      IntactTells(c, d, d', c.decodeManifest(d[MANIFEST].data).value);
    }
  }

  lemma ExtrasAreIgnored(c: Codec, d: Dir, name: string, extra: Node, p: ReviewPayload, maximum: nat, w: WorkPayload)
    requires !IsRegular(d, name) && !extra.Regular?
    ensures VerifyReview(c, Directory(d[name := extra]), p, maximum) == VerifyReview(c, Directory(d), p, maximum)
    ensures VerifyWork(c, Directory(d[name := extra]), w) == VerifyWork(c, Directory(d), w)
  {
    assert Contents(d[name := extra]) == Contents(d);
    OnlyRegularFilesCount(c, d[name := extra], d, p, maximum, w);
  }

  // ---- acceptance, exactly ----

  /** Within the size budgets, and approving the diff it carries. */
  predicate Acceptable(c: Codec, p: ReviewPayload, evidence: Document, diff: Option<Bytes>, files: map<string, Bytes>,
                       maximum: nat) {
    && diff.Some? && Approves(c, evidence, p, diff.value) && |diff.value| <= maximum
    && |c.encodeDocument(evidence)| + |c.encodeManifest(ManifestOf(c, files))| <= maximum
  }

  /** Under the anchors of a written review bundle a place is accepted if and only
      if it is a directory with byte for byte the regular files that were written
      and the written evidence is acceptable. */
  lemma ReviewAcceptedIff(c: Codec, p: ReviewPayload, evidence: Document, diff: Option<Bytes>, model: Option<Bytes>,
                          place: Place, maximum: nat)
    requires RoundTrips(c) && Injective(c)
    ensures var files := ReviewFiles(c, evidence, diff, model);
            VerifyReview(c, place, ReviewAnchors(c, p, evidence, diff, model), maximum).Accepted? <==>
              place.Directory? && Contents(place.entries) == Contents(Bundle(c, files))
              && Acceptable(c, p, evidence, diff, files, maximum)
  {
    var files := ReviewFiles(c, evidence, diff, model);
    var anchors := ReviewAnchors(c, p, evidence, diff, model);
    var w := WorkPayload("", "");
    WrittenReviewPasses(c, p, evidence, diff, model, maximum);
    if VerifyReview(c, place, anchors, maximum).Accepted? {
      AcceptedReviewIsWritten(c, p, evidence, diff, model, place, maximum);
      OnlyRegularFilesCount(c, place.entries, Bundle(c, files), anchors, maximum, w);
    } else if place.Directory? && Contents(place.entries) == Contents(Bundle(c, files)) {
      OnlyRegularFilesCount(c, place.entries, Bundle(c, files), anchors, maximum, w);
    }
  }

  /** The same for the worker's bundle. */
  lemma WorkAcceptedIff(c: Codec, evidence: Document, patch: Bytes, logs: map<string, Bytes>, place: Place)
    requires RoundTrips(c) && Injective(c) && FilesOk(logs)
    ensures var files := WorkFiles(c, evidence, patch, logs);
            VerifyWork(c, place, WorkAnchors(c, evidence, patch, logs)).Accepted? <==>
              place.Directory? && Contents(place.entries) == Contents(Bundle(c, files)) && HandsOver(evidence)
              && |c.encodeDocument(evidence)| <= MAX_JOB_BYTES
              && |c.encodeManifest(ManifestOf(c, files))| <= MAX_JOB_BYTES
  {
    var files, anchors := WorkFiles(c, evidence, patch, logs), WorkAnchors(c, evidence, patch, logs);
    var p := ReviewPayload("", "", "", "", "", "");
    WrittenWorkPasses(c, evidence, patch, logs);
    if VerifyWork(c, place, anchors).Accepted? {
      AcceptedWorkIsWritten(c, evidence, patch, logs, place);
      OnlyRegularFilesCount(c, place.entries, Bundle(c, files), p, 0, anchors);
    } else if place.Directory? && Contents(place.entries) == Contents(Bundle(c, files)) {
      OnlyRegularFilesCount(c, place.entries, Bundle(c, files), p, 0, anchors);
    }
  }

  // ---- what accepted evidence says, field by field ----

  predicate Says(d: Document, key: string, text: string) { key in d && d[key] == Str(text) }

  predicate SaysTruth(d: Document, key: string, truth: bool) { key in d && d[key] == Bool(truth) }

  /** The number 1, or true, which Python takes for the same. */
  predicate VersionOne(d: Document) {
    "schema_version" in d && (d["schema_version"] == Num(1) || d["schema_version"] == Bool(true))
  }

  /** An approval of this very candidate: of the review job, the commits, the
      branch and the diff the payload and the directory name. */
  predicate ApprovesCandidate(c: Codec, d: Document, p: ReviewPayload, diff: Bytes) {
    && VersionOne(d) && Says(d, "job_id", p.reviewJob)
    && Says(d, "base_commit", p.base) && Says(d, "head_commit", p.head) && Says(d, "branch", p.branch)
    && Says(d, "verdict", "approve") && SaysTruth(d, "integrity_verified", true)
    && SaysTruth(d, "promotion_authorized", false) && Says(d, "next_stage", "B034 adversarial QA")
    && Says(d, "reconstructed_diff_sha256", c.digest(diff))
  }

  /** Whatever the coordinator accepts, from whatever directory: the evidence is
      the document with the digest of the payload and approves the candidate of
      the payload; the diff is the one in the directory; and both are within the budget. */
  lemma AcceptedReviewSays(c: Codec, place: Place, p: ReviewPayload, maximum: nat)
    requires VerifyReview(c, place, p, maximum).Accepted?
    ensures var (evidence, diff) := VerifyReview(c, place, p, maximum).value;
            && ApprovesCandidate(c, evidence, p, diff)
            && place.Directory? && IsRegular(place.entries, "review-evidence.json")
            && IsRegular(place.entries, "reconstructed.diff") && IsRegular(place.entries, "manifest.json")
            && diff == place.entries["reconstructed.diff"].data && |diff| <= maximum
            && (var bytes, listing := place.entries["review-evidence.json"].data, place.entries["manifest.json"].data;
                && c.digest(bytes) == p.evidenceSha && c.digest(listing) == p.manifestSha
                && c.decodeDocument(bytes) == Parsed(evidence) && |bytes| + |listing| <= maximum)
  {}

  /** And a written bundle whose evidence says all that, within the budget, is accepted. */
  lemma ApprovingReviewIsAccepted(c: Codec, p: ReviewPayload, evidence: Document, diff: Bytes, model: Option<Bytes>,
                                  maximum: nat)
    requires RoundTrips(c) && ApprovesCandidate(c, evidence, p, diff) && |diff| <= maximum
    requires var files := ReviewFiles(c, evidence, Some(diff), model);
             |c.encodeDocument(evidence)| + |c.encodeManifest(ManifestOf(c, files))| <= maximum
    ensures var files := ReviewFiles(c, evidence, Some(diff), model);
            VerifyReview(c, Directory(Bundle(c, files)), ReviewAnchors(c, p, evidence, Some(diff), model), maximum)
              == Accepted((evidence, diff))
  {
    WrittenReviewPasses(c, p, evidence, Some(diff), model, maximum);
  }

  /** No evidence document is accepted for two candidates: it names its review job,
      its commits and its branch. */
  lemma EvidenceIsForOneCandidate(c: Codec, place: Place, p: ReviewPayload, maximum: nat,
                                  place': Place, p': ReviewPayload, maximum': nat)
    requires VerifyReview(c, place, p, maximum).Accepted? && VerifyReview(c, place', p', maximum').Accepted?
    requires VerifyReview(c, place, p, maximum).value.0 == VerifyReview(c, place', p', maximum').value.0
    ensures p.reviewJob == p'.reviewJob && p.base == p'.base && p.head == p'.head && p.branch == p'.branch
  {
    AcceptedReviewSays(c, place, p, maximum);
    AcceptedReviewSays(c, place', p', maximum');
  }

  /** The regular files of a directory are its manifest and exactly those the
      manifest lists, each under a plain name with its digest and its size. */
  ghost predicate ListsItsFiles(c: Codec, d: Dir, m: Manifest) {
    && (m.version == Num(1) || m.version == Bool(true))
    && (forall name :: name in m.files || name == "manifest.json" <==> IsRegular(d, name))
    && (forall name :: name in m.files ==>
          && '/' !in name && name != "." && m.files[name].Meta? && IsRegular(d, name)
          && m.files[name].sha256 == Str(c.digest(d[name].data))
          && (m.files[name].bytes == Num(|d[name].data|)
              || (m.files[name].bytes == Bool(true) && |d[name].data| == 1)
              || (m.files[name].bytes == Bool(false) && |d[name].data| == 0)))
  }

  /** Whatever a verifier accepts lists its files. */
  lemma AcceptedListsItsFiles(c: Codec, d: Dir, p: ReviewPayload, maximum: nat, w: WorkPayload)
    requires VerifyReview(c, Directory(d), p, maximum).Accepted? || VerifyWork(c, Directory(d), w).Accepted?
    ensures "manifest.json" in d && d["manifest.json"].Regular?
    ensures c.decodeManifest(d["manifest.json"].data).Parsed?
    ensures ListsItsFiles(c, d, c.decodeManifest(d["manifest.json"].data).value)
  {
    var m := c.decodeManifest(d[MANIFEST].data).value;
    forall name ensures name in m.files || name == MANIFEST <==> IsRegular(d, name) {
      assert name in Regulars(d) <==> IsRegular(d, name);
    }
  }

  /** A candidate handed over: not promoted, and meant for the reviewer. */
  predicate HandsOverCandidate(d: Document) {
    VersionOne(d) && SaysTruth(d, "promotion_authorized", false) && Says(d, "next_stage", "B033 independent reviewer")
  }

  /** Whatever the reviewer accepts has the digests of its payload, hands the
      candidate over and comes with its patch, within a mebibyte each. */
  lemma AcceptedWorkSays(c: Codec, place: Place, w: WorkPayload)
    requires VerifyWork(c, place, w).Accepted?
    ensures var (manifest, evidence) := VerifyWork(c, place, w).value;
            && HandsOverCandidate(evidence)
            && place.Directory? && IsRegular(place.entries, "implementation-evidence.json")
            && IsRegular(place.entries, "model.patch") && IsRegular(place.entries, "manifest.json")
            && (var bytes, listing :=
                  place.entries["implementation-evidence.json"].data, place.entries["manifest.json"].data;
                && c.digest(bytes) == w.evidenceSha && c.digest(listing) == w.manifestSha
                && c.decodeDocument(bytes) == Parsed(evidence) && c.decodeManifest(listing) == Parsed(manifest)
                && |bytes| <= 1048576 && |listing| <= 1048576)
  {
    assert PATCH in VerifyWork(c, place, w).value.0.files;
  }

  lemma WorkIsAccepted(c: Codec, evidence: Document, patch: Bytes, logs: map<string, Bytes>)
    requires RoundTrips(c) && FilesOk(logs) && HandsOverCandidate(evidence) && |c.encodeDocument(evidence)| <= 1048576
    requires |c.encodeManifest(ManifestOf(c, WorkFiles(c, evidence, patch, logs)))| <= 1048576
    ensures var files := WorkFiles(c, evidence, patch, logs);
            VerifyWork(c, Directory(Bundle(c, files)), WorkAnchors(c, evidence, patch, logs))
              == Accepted((ManifestOf(c, files), evidence))
  {
    WrittenWorkPasses(c, evidence, patch, logs);
  }
}

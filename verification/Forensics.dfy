/**
 Forensic bundles: generation, the three content verifiers and the manifest check. The digest
 (SHA-256 of a value's JSON text) is a parameter; that it tells two particular values apart is a
 hypothesis of the lemmas that need it.
 */
module Forensics {
  import opened Base

  type Digest = string

  datatype IntentVersionEntry = IntentVersionEntry(intentId: Uuid, version: int, contentHash: Digest)
  datatype ArtifactEntry = ArtifactEntry(artifactId: Uuid, contentHash: Digest, collectedAt: Timestamp)
  datatype ApprovalEntry = ApprovalEntry(approvalId: Uuid, contentHash: Digest)
  datatype AuditEventEntry = AuditEventEntry(eventId: Uuid, contentHash: Digest, eventIndex: nat)
  datatype PolicySnapshotEntry = PolicySnapshotEntry(snapshotId: Uuid, scopeHash: Digest)

  datatype Sections = Sections(
    intentVersions: seq<IntentVersionEntry>,
    artifacts: seq<ArtifactEntry>,
    approvals: seq<ApprovalEntry>,
    auditEvents: seq<AuditEventEntry>,
    policySnapshots: seq<PolicySnapshotEntry>)

  datatype SectionName = IntentVersions | Artifacts | Approvals | AuditEvents | PolicySnapshots

  const ALL_SECTIONS := [IntentVersions, Artifacts, Approvals, AuditEvents, PolicySnapshots]

  datatype SectionHashes = SectionHashes(
    intentVersions: Digest, artifacts: Digest, approvals: Digest, auditEvents: Digest, policySnapshots: Digest)

  datatype Contents = Contents(intentVersions: nat, artifacts: nat, approvals: nat, auditEvents: nat,
                               policySnapshots: nat)

  datatype BundleStatus = BundlePending | BundleGenerating | BundleReady | BundleFailed

  datatype Purpose = IncidentInvestigation | ComplianceAudit | Legal

  datatype Integrity = Integrity(
    manifestHash: Digest, previousBundleHash: Option<Digest>, chainVerified: bool, verificationTimestamp: Timestamp,
    hashes: SectionHashes)

  datatype RetentionPolicy = Hot | Cold | Archive

  datatype Retention = Retention(policy: RetentionPolicy, expiresAt: Option<Timestamp>, setAt: Timestamp, setBy: string)

  datatype Bundle = Bundle(
    id: Uuid, version: string, createdAt: Timestamp, createdBy: string, tenantId: Uuid,
    start: Timestamp, end: Timestamp, purpose: Purpose, status: BundleStatus,
    contents: Contents, integrity: Integrity, retention: Option<Retention>)

  /** The values that are ever hashed. */
  datatype Document =
    | IntentVersionsForHash(versions: seq<IntentVersionEntry>)
    | ArtifactsForHash(artifacts: seq<ArtifactEntry>)
    | ApprovalsForHash(approvals: seq<ApprovalEntry>)
    | AuditEventsForHash(events: seq<AuditEventEntry>)
    | PolicySnapshotsForHash(snapshots: seq<PolicySnapshotEntry>)
    | Manifest(bundle: Bundle)

  function SectionOf(s: Sections, name: SectionName): Document {
    match name
    case IntentVersions => IntentVersionsForHash(s.intentVersions)
    case Artifacts => ArtifactsForHash(s.artifacts)
    case Approvals => ApprovalsForHash(s.approvals)
    case AuditEvents => AuditEventsForHash(s.auditEvents)
    case PolicySnapshots => PolicySnapshotsForHash(s.policySnapshots)
  }

  function SizeOf(s: Sections, name: SectionName): nat {
    match name
    case IntentVersions => |s.intentVersions|
    case Artifacts => |s.artifacts|
    case Approvals => |s.approvals|
    case AuditEvents => |s.auditEvents|
    case PolicySnapshots => |s.policySnapshots|
  }

  function HashOf(h: SectionHashes, name: SectionName): Digest {
    match name
    case IntentVersions => h.intentVersions
    case Artifacts => h.artifacts
    case Approvals => h.approvals
    case AuditEvents => h.auditEvents
    case PolicySnapshots => h.policySnapshots
  }

  // ----- Generation -----

  datatype Request = Request(tenantId: Uuid, start: Timestamp, end: Timestamp, purpose: Purpose, createdBy: string,
                             sections: Sections)

  datatype IntegrityHash = IntegrityHash(manifestHash: Digest, hashes: SectionHashes, counts: Contents,
                                         computedAt: Timestamp)

  datatype SectionHash = SectionHash(section: SectionName, contentHash: Digest, itemCount: nat)

  datatype Generation = Generation(bundle: Bundle, integrityHash: IntegrityHash, sectionHashes: seq<SectionHash>)

  /** The bundle as its own hash sees it: the hash cannot cover itself. */
  function Cleared(b: Bundle): Bundle {
    b.(integrity := b.integrity.(manifestHash := ""))
  }

  /** Every recorded section hash, in the manifest and beside it, is the hash of that section of the request. */
  ghost predicate Records(hash: Document -> Digest, sections: Sections, g: Generation) {
    && (forall name :: HashOf(g.bundle.integrity.hashes, name) == hash(SectionOf(sections, name)))
    && g.integrityHash.hashes == g.bundle.integrity.hashes
    && g.integrityHash.counts == g.bundle.contents
    && g.bundle.contents == Contents(|sections.intentVersions|, |sections.artifacts|, |sections.approvals|,
                                     |sections.auditEvents|, |sections.policySnapshots|)
    && AuditTrail(hash, sections, g.sectionHashes)
  }

  /** One entry per section, in order. */
  ghost predicate AuditTrail(hash: Document -> Digest, sections: Sections, trail: seq<SectionHash>) {
    && |trail| == |ALL_SECTIONS|
    && forall i :: 0 <= i < |trail| ==>
         trail[i] == SectionHash(ALL_SECTIONS[i], hash(SectionOf(sections, ALL_SECTIONS[i])),
                                 SizeOf(sections, ALL_SECTIONS[i]))
  }

  method Generate(hash: Document -> Digest, request: Request, id: Uuid, createdAt: Timestamp, computedAt: Timestamp,
                  verifiedAt: Timestamp) returns (g: Generation)
    ensures Records(hash, request.sections, g)
    ensures VerifyManifest(hash, g.bundle) && g.integrityHash.manifestHash == g.bundle.integrity.manifestHash
    ensures g.bundle.status == BundleGenerating && g.bundle.id == id && g.bundle.tenantId == request.tenantId
    ensures g.bundle.purpose == request.purpose && g.bundle.start == request.start && g.bundle.end == request.end
    ensures g.bundle.createdBy == request.createdBy && g.bundle.retention == None && g.bundle.version == "v1"
    ensures g.bundle.createdAt == createdAt && g.integrityHash.computedAt == computedAt
    ensures g.bundle.integrity.verificationTimestamp == verifiedAt
    ensures !g.bundle.integrity.chainVerified && g.bundle.integrity.previousBundleHash == None
  {
    var s := request.sections;
    var contents := Contents(|s.intentVersions|, |s.artifacts|, |s.approvals|, |s.auditEvents|, |s.policySnapshots|);
    var hashes := SectionHashes(
      hash(IntentVersionsForHash(s.intentVersions)), hash(ArtifactsForHash(s.artifacts)),
      hash(ApprovalsForHash(s.approvals)),
      hash(AuditEventsForHash(s.auditEvents)), hash(PolicySnapshotsForHash(s.policySnapshots)));
    var integrityHash := IntegrityHash("", hashes, contents, computedAt);
    var empty := Integrity("", None, false, createdAt, SectionHashes("", "", "", "", ""));
    var bundle := Bundle(id, "v1", createdAt, request.createdBy, request.tenantId, request.start, request.end,
                         request.purpose, BundlePending, contents, empty, None);
    bundle := bundle.(status := BundleGenerating);
    bundle := bundle.(integrity := bundle.integrity.(hashes := hashes));
    bundle := bundle.(integrity := bundle.integrity.(verificationTimestamp := verifiedAt));
    var sectionHashes := [
      SectionHash(IntentVersions, hashes.intentVersions, bundle.contents.intentVersions),
      SectionHash(Artifacts, hashes.artifacts, bundle.contents.artifacts),
      SectionHash(Approvals, hashes.approvals, bundle.contents.approvals),
      SectionHash(AuditEvents, hashes.auditEvents, bundle.contents.auditEvents),
      SectionHash(PolicySnapshots, hashes.policySnapshots, bundle.contents.policySnapshots)];
    bundle := bundle.(integrity := bundle.integrity.(manifestHash := ""));
    var manifestHash := hash(Manifest(bundle));
    bundle := bundle.(integrity := bundle.integrity.(manifestHash := manifestHash));
    integrityHash := integrityHash.(manifestHash := manifestHash);
    g := Generation(bundle, integrityHash, sectionHashes);
  }

  // ----- Verification -----

  /** The manifest check: the bundle with its own hash cleared must hash to the stored value. */
  predicate VerifyManifest(hash: Document -> Digest, b: Bundle) {
    hash(Manifest(Cleared(b))) == b.integrity.manifestHash
  }

  function Mismatching(hash: Document -> Digest, recorded: SectionHashes, given: Sections): SectionName -> bool {
    (name: SectionName) => hash(SectionOf(given, name)) != HashOf(recorded, name)
  }

  /** The sections whose hashes differ from the recorded ones. */
  function Mismatches(hash: Document -> Digest, recorded: SectionHashes, given: Sections): seq<SectionName> {
    Filter(ALL_SECTIONS, Mismatching(hash, recorded, given))
  }

  /** The first verifier: the list of failing sections, empty for success. */
  method VerifyBundleIntegrity(hash: Document -> Digest, recorded: IntegrityHash, given: Sections)
    returns (failures: seq<SectionName>)
    ensures failures == Mismatches(hash, recorded.hashes, given)
  {
    ghost var p := Mismatching(hash, recorded.hashes, given);
    FilterSections(p);
    assert forall name :: p(name) <==> hash(SectionOf(given, name)) != HashOf(recorded.hashes, name);
    failures := [];
    var intentVersions := hash(IntentVersionsForHash(given.intentVersions));
    if intentVersions != recorded.hashes.intentVersions {
      failures := failures + [IntentVersions];
    }
    assert failures == Kept(p, IntentVersions);
    var artifacts := hash(ArtifactsForHash(given.artifacts));
    if artifacts != recorded.hashes.artifacts {
      failures := failures + [Artifacts];
    }
    assert failures == Kept(p, IntentVersions) + Kept(p, Artifacts);
    var approvals := hash(ApprovalsForHash(given.approvals));
    if approvals != recorded.hashes.approvals {
      failures := failures + [Approvals];
    }
    assert failures == Kept(p, IntentVersions) + Kept(p, Artifacts) + Kept(p, Approvals);
    var auditEvents := hash(AuditEventsForHash(given.auditEvents));
    if auditEvents != recorded.hashes.auditEvents {
      failures := failures + [AuditEvents];
    }
    assert failures == Kept(p, IntentVersions) + Kept(p, Artifacts) + Kept(p, Approvals) + Kept(p, AuditEvents);
    var policySnapshots := hash(PolicySnapshotsForHash(given.policySnapshots));
    if policySnapshots != recorded.hashes.policySnapshots {
      failures := failures + [PolicySnapshots];
    }
    assert failures == Kept(p, IntentVersions) + Kept(p, Artifacts) + Kept(p, Approvals) + Kept(p, AuditEvents)
      + Kept(p, PolicySnapshots);
  }

  function Kept(p: SectionName -> bool, name: SectionName): seq<SectionName> {
    if p(name) then [name] else []
  }

  lemma FilterSections(p: SectionName -> bool)
    ensures Filter(ALL_SECTIONS, p) ==
      Kept(p, IntentVersions) + Kept(p, Artifacts) + Kept(p, Approvals) + Kept(p, AuditEvents)
        + Kept(p, PolicySnapshots)
  {
    var one := [] + [IntentVersions];
    var two := one + [Artifacts];
    var three := two + [Approvals];
    var four := three + [AuditEvents];
    FilterAppend([], p, IntentVersions);
    FilterAppend(one, p, Artifacts);
    FilterAppend(two, p, Approvals);
    FilterAppend(three, p, AuditEvents);
    FilterAppend(four, p, PolicySnapshots);
    assert ALL_SECTIONS == four + [PolicySnapshots];
  }

  datatype SectionResult = SectionResult(section: SectionName, verified: bool, itemCount: nat, recorded: Digest,
                                         computed: Digest)

  datatype Report = Report(bundleId: Uuid, tenantId: Uuid, verified: bool, results: seq<SectionResult>, items: Contents,
                           passed: nat, failed: nat)

  datatype Response = Response(report: Report, bundle: Bundle, sectionHashes: seq<SectionHash>)

  datatype ReplayResult = Replayed(response: Response) | NotReady(bundleId: Uuid, status: BundleStatus)

  function Passed(): SectionResult -> bool { (r: SectionResult) => r.verified }
  function NotPassed(): SectionResult -> bool { (r: SectionResult) => !r.verified }

  function FromResults(b: Bundle, results: seq<SectionResult>): Report {
    var failed := Count(results, NotPassed());
    Report(b.id, b.tenantId, failed == 0, results, b.contents, Count(results, Passed()), failed)
  }

  function ResultFor(hash: Document -> Digest, recorded: SectionHashes, given: Sections,
                     name: SectionName): SectionResult
  {
    var computed := hash(SectionOf(given, name));
    SectionResult(name, computed == HashOf(recorded, name), SizeOf(given, name), HashOf(recorded, name), computed)
  }

  function ResultsFor(hash: Document -> Digest, recorded: SectionHashes, given: Sections,
                      names: seq<SectionName>): seq<SectionResult>
  {
    seq(|names|, i requires 0 <= i < |names| => ResultFor(hash, recorded, given, names[i]))
  }

  /** The second verifier: the caller supplies the recorded hashes, and any status is accepted. */
  method VerifyBundleWithIntegrity(hash: Document -> Digest, b: Bundle, given: Sections, recorded: SectionHashes)
    returns (r: ReplayResult)
    ensures r.Replayed? && AuditTrail(hash, given, r.response.sectionHashes) && r.response.bundle == b
    ensures r.response.report == FromResults(b, ResultsFor(hash, recorded, given, ALL_SECTIONS))
  {
    var trail: seq<SectionHash> := [];
    var intent := hash(IntentVersionsForHash(given.intentVersions));
    trail := trail + [SectionHash(IntentVersions, intent, |given.intentVersions|)];
    var artifacts := hash(ArtifactsForHash(given.artifacts));
    trail := trail + [SectionHash(Artifacts, artifacts, |given.artifacts|)];
    var approvals := hash(ApprovalsForHash(given.approvals));
    trail := trail + [SectionHash(Approvals, approvals, |given.approvals|)];
    var audit := hash(AuditEventsForHash(given.auditEvents));
    trail := trail + [SectionHash(AuditEvents, audit, |given.auditEvents|)];
    var policy := hash(PolicySnapshotsForHash(given.policySnapshots));
    trail := trail + [SectionHash(PolicySnapshots, policy, |given.policySnapshots|)];
    var results := [
      SectionResult(IntentVersions, intent == recorded.intentVersions, |given.intentVersions|,
                    recorded.intentVersions, intent),
      SectionResult(Artifacts, artifacts == recorded.artifacts, |given.artifacts|, recorded.artifacts, artifacts),
      SectionResult(Approvals, approvals == recorded.approvals, |given.approvals|, recorded.approvals, approvals),
      SectionResult(AuditEvents, audit == recorded.auditEvents, |given.auditEvents|, recorded.auditEvents, audit),
      SectionResult(PolicySnapshots, policy == recorded.policySnapshots, |given.policySnapshots|,
                    recorded.policySnapshots, policy)];
    assert results == ResultsFor(hash, recorded, given, ALL_SECTIONS);
    r := Replayed(Response(FromResults(b, results), b, trail));
  }

  /** The third verifier: the hashes come from the manifest, which must be ready. */
  function VerifyBundleFromIntegrity(hash: Document -> Digest, b: Bundle, given: Sections): ReplayResult {
    if b.status != BundleReady then NotReady(b.id, b.status)
    else
      var trail := seq(|ALL_SECTIONS|, i requires 0 <= i < |ALL_SECTIONS| =>
        SectionHash(ALL_SECTIONS[i], hash(SectionOf(given, ALL_SECTIONS[i])), SizeOf(given, ALL_SECTIONS[i])));
      Replayed(Response(FromResults(b, ResultsFor(hash, b.integrity.hashes, given, ALL_SECTIONS)), b, trail))
  }

  // ----- What verification means -----

  /** No collision between these two values. */
  predicate TellsApart(hash: Document -> Digest, d: Document, e: Document) {
    hash(d) == hash(e) ==> d == e
  }

  /** No collision between a section and its counterpart. */
  ghost predicate TellsSectionsApart(hash: Document -> Digest, a: Sections, b: Sections) {
    forall name :: TellsApart(hash, SectionOf(a, name), SectionOf(b, name))
  }

  function Differs(a: Sections, b: Sections): SectionName -> bool {
    (name: SectionName) => SectionOf(a, name) != SectionOf(b, name)
  }

  /** The sections in which two contents differ. */
  function Differences(a: Sections, b: Sections): seq<SectionName> {
    Filter(ALL_SECTIONS, Differs(a, b))
  }

  lemma NoDifferencesIffEqual(a: Sections, b: Sections)
    ensures Differences(a, b) == [] <==> a == b
  {
    if Differences(a, b) == [] {
      forall name: SectionName ensures SectionOf(a, name) == SectionOf(b, name) {
        FilterMember(ALL_SECTIONS, Differs(a, b), name);
        match name
        case IntentVersions => assert ALL_SECTIONS[0] == name;
        case Artifacts => assert ALL_SECTIONS[1] == name;
        case Approvals => assert ALL_SECTIONS[2] == name;
        case AuditEvents => assert ALL_SECTIONS[3] == name;
        case PolicySnapshots => assert ALL_SECTIONS[4] == name;
      }
      assert SectionOf(a, IntentVersions) == SectionOf(b, IntentVersions);
      assert SectionOf(a, Artifacts) == SectionOf(b, Artifacts);
      assert SectionOf(a, Approvals) == SectionOf(b, Approvals);
      assert SectionOf(a, AuditEvents) == SectionOf(b, AuditEvents);
      assert SectionOf(a, PolicySnapshots) == SectionOf(b, PolicySnapshots);
    } else {
      FilterMember(ALL_SECTIONS, Differs(a, b), Differences(a, b)[0]);
    }
  }

  lemma {:induction false} FilterAgrees<T>(s: seq<T>, p: T -> bool, q: T -> bool)
    requires forall x :: x in s ==> (p(x) <==> q(x))
    ensures Filter(s, p) == Filter(s, q)
  {
    if s != [] {
      FilterAgrees(s[..|s| - 1], p, q);
    }
  }

  /** The failing sections of a report, in order. */
  function Failing(results: seq<SectionResult>): seq<SectionName> {
    if results == [] then []
    else Failing(results[..|results| - 1])
         + (if results[|results| - 1].verified then [] else [results[|results| - 1].section])
  }

  lemma {:induction false} ResultsFail(hash: Document -> Digest, recorded: SectionHashes, given: Sections,
                                       names: seq<SectionName>)
    ensures var results := ResultsFor(hash, recorded, given, names);
      && Failing(results) == Filter(names, Mismatching(hash, recorded, given))
      && Count(results, NotPassed()) == |Failing(results)|
      && Count(results, Passed()) + Count(results, NotPassed()) == |names|
  {
    if names != [] {
      var init := names[..|names| - 1];
      ResultsFail(hash, recorded, given, init);
      var results := ResultsFor(hash, recorded, given, names);
      assert results[..|results| - 1] == ResultsFor(hash, recorded, given, init);
    }
  }

  /**
   The round trip: against what generation recorded, the given content verifies exactly when all
   five sections equal the originals; otherwise exactly the differing sections are reported.
   */
  lemma ContentVerifiesIffEqual(hash: Document -> Digest, original: Sections, g: Generation, given: Sections)
    requires Records(hash, original, g) && TellsSectionsApart(hash, original, given)
    ensures Mismatches(hash, g.integrityHash.hashes, given) == Differences(original, given)
    ensures Differences(original, given) == [] <==> original == given
  {
    var p := Mismatching(hash, g.integrityHash.hashes, given);
    forall name: SectionName ensures p(name) <==> Differs(original, given)(name) {
      assert TellsApart(hash, SectionOf(original, name), SectionOf(given, name));
    }
    FilterAgrees(ALL_SECTIONS, p, Differs(original, given));
    NoDifferencesIffEqual(original, given);
  }

  /** A section's result says which section, how many items, both hashes, and whether they agree. */
  predicate ResultTells(r: SectionResult, name: SectionName, hash: Document -> Digest, recorded: SectionHashes,
                        given: Sections)
  {
    && r.section == name && r.computed == hash(SectionOf(given, name)) && r.recorded == HashOf(recorded, name)
    && (r.verified <==> r.computed == r.recorded)
    && r.itemCount == match name
       case IntentVersions => |given.intentVersions|
       case Artifacts => |given.artifacts|
       case Approvals => |given.approvals|
       case AuditEvents => |given.auditEvents|
       case PolicySnapshots => |given.policySnapshots|
  }

  /** All verifiers agree with the differences, and their reports count them. */
  lemma VerifiersAgree(hash: Document -> Digest, original: Sections, g: Generation, given: Sections, b: Bundle)
    requires Records(hash, original, g) && TellsSectionsApart(hash, original, given)
    requires b.integrity.hashes == g.bundle.integrity.hashes
    ensures var report := FromResults(b, ResultsFor(hash, g.integrityHash.hashes, given, ALL_SECTIONS));
      && Failing(report.results) == Differences(original, given)
      && report.bundleId == b.id && report.tenantId == b.tenantId && report.items == b.contents
      && (forall i :: 0 <= i < 5 ==> ResultTells(report.results[i], ALL_SECTIONS[i], hash, b.integrity.hashes, given))
      && report.failed == |Differences(original, given)| && report.passed + report.failed == 5
      && (report.verified <==> original == given)
    ensures var r := VerifyBundleFromIntegrity(hash, b, given);
      && (if b.status == BundleReady then r.Replayed? && AuditTrail(hash, given, r.response.sectionHashes)
          else r == NotReady(b.id, b.status))
      && (r.Replayed? ==>
            r.response.report == FromResults(b, ResultsFor(hash, g.integrityHash.hashes, given, ALL_SECTIONS)))
  {
    ContentVerifiesIffEqual(hash, original, g, given);
    ResultsFail(hash, g.integrityHash.hashes, given, ALL_SECTIONS);
  }

  /** Once a bundle passes the manifest check, any other bundle that keeps its manifest hash fails it. */
  lemma ManifestDetectsEveryChange(hash: Document -> Digest, b: Bundle, changed: Bundle)
    requires VerifyManifest(hash, b) && changed.integrity.manifestHash == b.integrity.manifestHash
    requires TellsApart(hash, Manifest(Cleared(b)), Manifest(Cleared(changed)))
    ensures VerifyManifest(hash, changed) <==> changed == b
  {
    if VerifyManifest(hash, changed) {
      assert Cleared(b) == Cleared(changed);
      assert b.integrity == Cleared(b).integrity.(manifestHash := b.integrity.manifestHash);
      assert changed.integrity == Cleared(changed).integrity.(manifestHash := b.integrity.manifestHash);
    }
  }

  /**
   Consequence for a generated bundle: it is not ready when its manifest hash is computed, so no
   bundle that keeps that hash passes both the manifest check and the verifier that wants it ready.
   */
  lemma ReadyBundleFailsManifestCheck(hash: Document -> Digest, b: Bundle, changed: Bundle, given: Sections)
    requires VerifyManifest(hash, b) && b.status == BundleGenerating
    requires changed.integrity.manifestHash == b.integrity.manifestHash
    requires TellsApart(hash, Manifest(Cleared(b)), Manifest(Cleared(changed)))
    ensures !(VerifyManifest(hash, changed) && VerifyBundleFromIntegrity(hash, changed, given).Replayed?)
    ensures changed == b.(status := BundleReady) ==> !VerifyManifest(hash, changed)
  {
    ManifestDetectsEveryChange(hash, b, changed);
  }
}

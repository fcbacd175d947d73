/** The provider input that Authority binds to a review, and the reviewer's declaration of it. */
module EvidenceInput {
  import opened Common

  /** The fields of a review's scope that every reference repeats. */
  datatype Scope = Scope(
    project: Id, charter: Id, charterRevision: int, workflow: Id, workItem: Id, producerAssignment: Id, producerAttempt: Id)

  /** wellFormed stands for the checks on a reference alone. */
  datatype Reference = Reference(
    id: Id, revision: int, sha256: Id, bundle: Id, scope: Scope, reviewedAssignment: Id, otherFields: Id, wellFormed: bool)

  /** wellFormed stands for the text and number checks on the remaining fields. */
  datatype Base = Base(
    scope: Scope, reviewerAssignment: Id, reviewerAttempt: Id, references: seq<Reference>, manifest: Id,
    otherFields: Id, wellFormed: bool)

  datatype Transport = Transport(
    composition: Id, provider: Id, account: Id, session: Id, model: Id, workspace: Id, attempt: Id,
    launch: Id, generation: int, wellFormed: bool)

  datatype Material = Material(base: Base, transport: Transport)

  /** `structured_digest`, taken as injective on what it is applied to. */
  datatype Digest = OfMaterial(material: Material) | OfInput(input: ProviderInput) | OfOther(other: Id)

  datatype ProviderInput = ProviderInput(material: Material, delivered: Digest)

  datatype Disposition = Accepted | RepairRequired

  datatype DeclaredReference = DeclaredReference(id: Id, revision: int, sha256: Id, bundle: Id)

  datatype Declaration = Declaration(
    scope: Scope, reviewerAssignment: Id, reviewerAttempt: Id, provider: Id, session: Id,
    delivered: Digest, input: Digest, manifest: Id, disposition: Disposition, references: seq<DeclaredReference>)

  // ------------------------------------------------------------- validation

  predicate ReferenceFits(r: Reference, base: Base) {
    r.wellFormed && r.scope == base.scope && r.reviewedAssignment == base.scope.producerAssignment
  }

  ghost predicate BaseValid(base: Base) {
    && base.wellFormed && base.references != []
    && (forall k :: 0 <= k < |base.references| ==> ReferenceFits(base.references[k], base))
    && (forall j, k :: 0 <= j < k < |base.references| ==> base.references[j].id != base.references[k].id)
  }

  /** `_validate_common_input`. */
  method ValidateCommon(base: Base) returns (ok: bool)
    ensures ok <==> BaseValid(base)
  {
    if !base.wellFormed || base.references == [] {
      return false;
    }
    var seen: set<Id> := {};
    for k := 0 to |base.references|
      invariant forall j :: 0 <= j < k ==> ReferenceFits(base.references[j], base)
      invariant forall i, j :: 0 <= i < j < k ==> base.references[i].id != base.references[j].id
      invariant forall id :: id in seen <==> exists j :: 0 <= j < k && base.references[j].id == id
    {
      var r := base.references[k];
      if !r.wellFormed || r.id in seen {
        return false;
      }
      seen := seen + {r.id};
      if r.scope != base.scope || r.reviewedAssignment != base.scope.producerAssignment {
        return false;
      }
    }
    ok := true;
  }

  ghost predicate InputValid(input: ProviderInput) {
    BaseValid(input.material.base) && input.material.transport.wellFormed && input.delivered == OfMaterial(input.material)
  }

  /** `validate_provider_input`. */
  method ValidateInput(input: ProviderInput) returns (ok: bool)
    ensures ok <==> InputValid(input)
  {
    ok := ValidateCommon(input.material.base);
    ok := ok && input.material.transport.wellFormed && input.delivered == OfMaterial(input.material);
  }

  /** `finalize_provider_input`: the input and its two digests. It succeeds for exactly the
      materials that are valid, and what it makes validates as itself. */
  method Finalize(base: Base, transport: Transport) returns (r: Option<(ProviderInput, Digest, Digest)>)
    ensures r.Some? <==> BaseValid(base) && transport.wellFormed
    ensures r.Some? ==>
      && InputValid(r.value.0) && r.value.0.material == Material(base, transport)
      && r.value.1 == r.value.0.delivered && r.value.2 == OfInput(r.value.0)
  {
    var ok := ValidateCommon(base);
    if !ok {
      return None;
    }
    var material := Material(base, transport);
    var input := ProviderInput(material, OfMaterial(material));
    ok := ValidateInput(input);
    r := if ok then Some((input, input.delivered, OfInput(input))) else None;
  }

  // ------------------------------------------------------------ declarations

  function Declared(references: seq<Reference>): (r: seq<DeclaredReference>)
    ensures |r| == |references|
    ensures forall k :: 0 <= k < |r| ==>
      r[k] == DeclaredReference(references[k].id, references[k].revision, references[k].sha256, references[k].bundle)
  {
    if references == [] then []
    else
      var r := references[0];
      [DeclaredReference(r.id, r.revision, r.sha256, r.bundle)] + Declared(references[1..])
  }

  function DeclarationOf(input: ProviderInput, digest: Digest, disposition: Disposition): Declaration {
    var base, transport := input.material.base, input.material.transport;
    Declaration(base.scope, base.reviewerAssignment, base.reviewerAttempt, transport.provider, transport.session,
                input.delivered, digest, base.manifest, disposition, Declared(base.references))
  }

  /** What a declaration repeats of the input, field by field. */
  ghost predicate Repeats(d: Declaration, input: ProviderInput) {
    var base, transport := input.material.base, input.material.transport;
    && d.scope == base.scope && d.manifest == base.manifest
    && d.reviewerAssignment == base.reviewerAssignment && d.reviewerAttempt == base.reviewerAttempt
    && d.provider == transport.provider && d.session == transport.session && d.delivered == input.delivered
    && |d.references| == |base.references|
    && (forall k :: 0 <= k < |d.references| ==>
          && d.references[k].id == base.references[k].id && d.references[k].revision == base.references[k].revision
          && d.references[k].sha256 == base.references[k].sha256 && d.references[k].bundle == base.references[k].bundle)
  }

  /** When `validate_review_input_declaration` accepts. */
  ghost predicate Accepts(d: Declaration, input: ProviderInput, digest: Digest, disposition: Disposition) {
    && InputValid(input) && digest == OfInput(input)
    && Repeats(d, input) && d.input == digest && d.disposition == disposition
  }

  lemma RepeatsIffDerived(d: Declaration, input: ProviderInput, digest: Digest, disposition: Disposition)
    ensures d == DeclarationOf(input, digest, disposition) <==>
      Repeats(d, input) && d.input == digest && d.disposition == disposition
  {
    hide Declared;
    var derived := DeclarationOf(input, digest, disposition);
    if Repeats(d, input) {
      assert forall k :: 0 <= k < |d.references| ==> d.references[k] == derived.references[k];
      assert d.references == derived.references;
    }
  }

  method ValidateDeclaration(d: Declaration, input: ProviderInput, digest: Digest, disposition: Disposition) returns (ok: bool)
    ensures ok <==> Accepts(d, input, digest, disposition)
  {
    RepeatsIffDerived(d, input, digest, disposition);
    ok := ValidateInput(input);
    if !ok || digest != OfInput(input) || d != DeclarationOf(input, digest, disposition) {
      return false;
    }
    ok := d.references != [];
  }

  /** An accepted declaration fits one provider input, one digest and one disposition, although
      it repeats only part of the input. */
  lemma DeclarationFitsOneInput(d: Declaration, a: ProviderInput, da: Digest, sa: Disposition,
                                b: ProviderInput, db: Digest, sb: Disposition)
    requires Accepts(d, a, da, sa) && Accepts(d, b, db, sb)
    ensures a == b && da == db && sa == sb
  {
    assert d.input == OfInput(a) && d.input == OfInput(b);
  }
}

/**
 * The safety-pledge page (components/Step5SafetyPledge.tsx): one checkbox per
 * pledge item, an "agree to all" box, the signer's name and the signature.
 * The pledge items' keys (`Object.keys(PLEDGE_ITEMS)`) are a parameter.
 */
module PledgeStep {
  import opened Types
  import opened App

  /** `!!agreements[key]`: a key that is missing counts as not agreed. */
  function Agreed(m: map<string, bool>, key: string): bool {
    key in m && m[key]
  }

  /** `Object.values(m).every(Boolean)`: every key present maps to true. */
  predicate AllAgreed(m: map<string, bool>) {
    forall k :: k in m ==> m[k]
  }

  // ---------------------------------------------------------------------------
  // One item's checkbox

  /** The update `handleCheckChange(key)` sends: the flipped map, and `agreeToAll` recomputed over it. */
  function AgreementPatch(p: SafetyPledge, key: string): (d: SafetyPledgePatch)
    ensures d.agreements.Some? && d.agreeToAll.Some? && d.name.None? && d.signature.None?
    ensures d.agreeToAll.value <==> AllAgreed(d.agreements.value)
  {
    var m := p.agreements[key := !Agreed(p.agreements, key)];
    SafetyPledgePatch(Some(m), Some(AllAgreed(m)), None, None)
  }

  /**
   * The pledge after one item's checkbox is clicked: that key flips, every
   * other key keeps its value, and `agreeToAll` says whether every value now
   * in the map is true.
   */
  function ToggleAgreement(p: SafetyPledge, key: string): (r: SafetyPledge)
    ensures Agreed(r.agreements, key) == !Agreed(p.agreements, key)
    ensures r.agreements.Keys == p.agreements.Keys + {key}
    ensures forall k :: k in p.agreements && k != key ==> r.agreements[k] == p.agreements[k]
    ensures r.agreeToAll <==> forall k :: k in r.agreements ==> r.agreements[k]
    ensures r.name == p.name && r.signature == p.signature
  {
    MergePledge(p, AgreementPatch(p, key))
  }

  /** Unchecking any item clears "agree to all". */
  lemma UncheckingClearsAgreeToAll(p: SafetyPledge, key: string)
    requires Agreed(p.agreements, key)
    ensures !ToggleAgreement(p, key).agreeToAll
  {
    var r := ToggleAgreement(p, key);
    assert key in r.agreements && !r.agreements[key];
  }

  // ---------------------------------------------------------------------------
  // The "agree to all" box

  /** Every pledge key mapped to `v`, and nothing else. */
  function AgreeAllMap(keys: seq<string>, v: bool): (m: map<string, bool>)
    ensures forall k :: k in m <==> k in keys
    ensures forall k :: k in m ==> m[k] == v
  {
    map k | k in keys :: v
  }

  /**
   * `handleAgreeToAllChange`: builds the new map key by key, as the source's
   * `forEach` does, and sends it with the negated flag.
   */
  method AgreeToAllPatch(p: SafetyPledge, pledgeKeys: seq<string>) returns (d: SafetyPledgePatch)
    ensures d == SafetyPledgePatch(Some(AgreeAllMap(pledgeKeys, !p.agreeToAll)), Some(!p.agreeToAll), None, None)
  {
    var newAgreeToAll := !p.agreeToAll;
    var newAgreements: map<string, bool> := map[];
    for i := 0 to |pledgeKeys|
      invariant forall k :: k in newAgreements <==> k in pledgeKeys[..i]
      invariant forall k :: k in newAgreements ==> newAgreements[k] == newAgreeToAll
    {
      assert pledgeKeys[..i + 1] == pledgeKeys[..i] + [pledgeKeys[i]];
      newAgreements := newAgreements[pledgeKeys[i] := newAgreeToAll];
    }
    assert pledgeKeys[..|pledgeKeys|] == pledgeKeys;
    assert newAgreements == AgreeAllMap(pledgeKeys, newAgreeToAll);
    d := SafetyPledgePatch(Some(newAgreements), Some(newAgreeToAll), None, None);
  }

  /** The pledge after the "agree to all" box is clicked. */
  function AgreeToAll(p: SafetyPledge, pledgeKeys: seq<string>): (r: SafetyPledge)
    ensures r.agreeToAll == !p.agreeToAll
    ensures forall k :: k in r.agreements <==> k in pledgeKeys
    ensures forall k :: k in pledgeKeys ==> Agreed(r.agreements, k) == r.agreeToAll
    ensures r.name == p.name && r.signature == p.signature
  {
    MergePledge(p, SafetyPledgePatch(Some(AgreeAllMap(pledgeKeys, !p.agreeToAll)), Some(!p.agreeToAll), None, None))
  }

  /** Clicking "agree to all" twice restores the flag and maps every pledge key to that original flag. */
  lemma AgreeToAllTwice(p: SafetyPledge, pledgeKeys: seq<string>)
    ensures var r := AgreeToAll(AgreeToAll(p, pledgeKeys), pledgeKeys);
      r.agreeToAll == p.agreeToAll && r.agreements == AgreeAllMap(pledgeKeys, p.agreeToAll)
  {
    var r := AgreeToAll(AgreeToAll(p, pledgeKeys), pledgeKeys);
    assert r.agreements == AgreeAllMap(pledgeKeys, p.agreeToAll);
  }

  /** After agreeing to all, unchecking any one item clears "agree to all" again. */
  lemma AgreeAllThenUncheck(p: SafetyPledge, pledgeKeys: seq<string>, key: string)
    requires !p.agreeToAll && key in pledgeKeys
    ensures AgreeToAll(p, pledgeKeys).agreeToAll && AllAgreed(AgreeToAll(p, pledgeKeys).agreements)
    ensures !ToggleAgreement(AgreeToAll(p, pledgeKeys), key).agreeToAll
  {
    UncheckingClearsAgreeToAll(AgreeToAll(p, pledgeKeys), key);
  }

  // ---------------------------------------------------------------------------
  // Name and signature

  function NamePatch(name: string): (d: SafetyPledgePatch)
    ensures forall p :: MergePledge(p, d) == p.(name := name)
  {
    SafetyPledgePatch(None, None, Some(name), None)
  }

  /** The signature pad reports the drawn image, or '' when it is cleared. */
  function SignaturePatch(signature: string): (d: SafetyPledgePatch)
    ensures forall p :: MergePledge(p, d) == p.(signature := signature)
  {
    SafetyPledgePatch(None, None, None, Some(signature))
  }

  /** Clearing the signature keeps the pledge step from passing. */
  lemma ClearedSignatureBlocksStep(p: SafetyPledge)
    ensures !SafetyPledgeValid(MergePledge(p, SignaturePatch("")))
  {
  }

  // ---------------------------------------------------------------------------
  // "Agree to all" after a single click, as written and as intended

  /**
   * As written, one click on an item of a fresh pledge sets "agree to all":
   * the map then holds only that key, so every value in it is true, although
   * the other pledge items were never agreed to.
   */
  lemma SingleClickAgreesToAll(pledgeKeys: seq<string>, name: string, signature: string)
    requires |pledgeKeys| >= 2 && pledgeKeys[0] != pledgeKeys[1]
    requires name != "" && signature != ""
    ensures var r := ToggleAgreement(InitialFormData.safetyPledge, pledgeKeys[0]);
      r.agreeToAll && !Agreed(r.agreements, pledgeKeys[1]) &&
      SafetyPledgeValid(r.(name := name, signature := signature))
  {
    var r := ToggleAgreement(InitialFormData.safetyPledge, pledgeKeys[0]);
    assert r.agreements == map[pledgeKeys[0] := true];
  }

  /** The intended flag: every pledge item agreed to. */
  predicate AllItemsAgreed(m: map<string, bool>, pledgeKeys: seq<string>) {
    forall k :: k in pledgeKeys ==> Agreed(m, k)
  }

  /** An item's click with the flag recomputed over all pledge items. */
  function ToggleAgreementOverItems(p: SafetyPledge, key: string, pledgeKeys: seq<string>): (r: SafetyPledge)
    ensures Agreed(r.agreements, key) == !Agreed(p.agreements, key)
    ensures r.agreements.Keys == p.agreements.Keys + {key}
    ensures forall k :: k in p.agreements && k != key ==> r.agreements[k] == p.agreements[k]
    ensures r.agreeToAll <==> AllItemsAgreed(r.agreements, pledgeKeys)
    ensures r.name == p.name && r.signature == p.signature
  {
    var m := p.agreements[key := !Agreed(p.agreements, key)];
    MergePledge(p, SafetyPledgePatch(Some(m), Some(AllItemsAgreed(m, pledgeKeys)), None, None))
  }

  /** With the corrected flag, the same single click leaves the pledge step blocked. */
  lemma SingleClickOverItemsBlocksStep(pledgeKeys: seq<string>, name: string, signature: string)
    requires |pledgeKeys| >= 2 && pledgeKeys[0] != pledgeKeys[1]
    ensures var r := ToggleAgreementOverItems(InitialFormData.safetyPledge, pledgeKeys[0], pledgeKeys);
      !r.agreeToAll && !SafetyPledgeValid(r.(name := name, signature := signature))
  {
    var r := ToggleAgreementOverItems(InitialFormData.safetyPledge, pledgeKeys[0], pledgeKeys);
    assert r.agreements == map[pledgeKeys[0] := true];
    assert !Agreed(r.agreements, pledgeKeys[1]);
  }

  /**
   * The two agree whenever the map already holds exactly the pledge keys,
   * as it does after "agree to all" has been clicked once.
   */
  lemma OverItemsMatchesWhenKeysComplete(p: SafetyPledge, key: string, pledgeKeys: seq<string>)
    requires forall k :: k in p.agreements <==> k in pledgeKeys
    requires key in pledgeKeys
    ensures ToggleAgreementOverItems(p, key, pledgeKeys) == ToggleAgreement(p, key)
  {
    var r := ToggleAgreement(p, key);
    var s := ToggleAgreementOverItems(p, key, pledgeKeys);
    assert r.agreements == s.agreements;
    assert r.agreeToAll == s.agreeToAll by {
      if r.agreeToAll {
        forall k | k in pledgeKeys ensures Agreed(s.agreements, k) {
          assert k in r.agreements;
        }
      }
      if s.agreeToAll {
        forall k | k in r.agreements ensures r.agreements[k] {
          assert Agreed(s.agreements, k);
        }
      }
    }
  }
}

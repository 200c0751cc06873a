/**
 Voting power and quorums of a validator set (types/src/validator_verifier.rs).
 */
module Quorum {
  import opened Wrappers

  type Author = nat
  type PublicKey = nat

  datatype ValidatorInfo = ValidatorInfo(author: Author, power: nat, key: PublicKey)

  datatype Verifier = Verifier(infos: seq<ValidatorInfo>) {
    /** Voting power held by the members of `who`; strangers hold none. */
    function PowerOf(who: set<Author>): nat {
      PowerIn(infos, who)
    }

    function Authors(): set<Author> {
      set i | 0 <= i < |infos| :: infos[i].author
    }

    function Total(): nat {
      PowerIn(infos, Authors())
    }

    /** Two thirds of the total plus one, or zero for the empty set. */
    function QuorumPower(): nat {
      if infos == [] then 0 else Total() * 2 / 3 + 1
    }

    /** The super-majority check on a set of signers: unknown signers are an error. */
    predicate IsQuorum(signers: set<Author>) {
      signers <= Authors() && PowerOf(signers) >= QuorumPower()
    }

    /** Fewer faults than the honest-witness threshold, total - quorum + 1. */
    predicate Tolerates(faulty: set<Author>) {
      infos != [] && PowerOf(faulty) < Total() - QuorumPower() + 1
    }

    function KeyOf(author: Author): Option<PublicKey> {
      KeyIn(infos, author)
    }
  }

  function KeyIn(infos: seq<ValidatorInfo>, author: Author): Option<PublicKey> {
    if infos == [] then None
    else if infos[0].author == author then Some(infos[0].key)
    else KeyIn(infos[1..], author)
  }

  function PowerIn(infos: seq<ValidatorInfo>, who: set<Author>): nat {
    if infos == [] then 0
    else (if infos[0].author in who then infos[0].power else 0) + PowerIn(infos[1..], who)
  }

  lemma {:induction false} PowerModular(infos: seq<ValidatorInfo>, a: set<Author>, b: set<Author>)
    ensures PowerIn(infos, a) + PowerIn(infos, b) == PowerIn(infos, a + b) + PowerIn(infos, a * b)
  {
    if infos != [] {
      PowerModular(infos[1..], a, b);
    }
  }

  /** Only the members listed in `infos` matter when comparing two sets. */
  lemma {:induction false} PowerMonotone(infos: seq<ValidatorInfo>, a: set<Author>, b: set<Author>)
    requires forall i :: 0 <= i < |infos| && infos[i].author in a ==> infos[i].author in b
    ensures PowerIn(infos, a) <= PowerIn(infos, b)
  {
    if infos != [] {
      forall i | 0 <= i < |infos[1..]| && infos[1..][i].author in a
        ensures infos[1..][i].author in b
      {
        assert infos[i + 1].author in a;
      }
      PowerMonotone(infos[1..], a, b);
    }
  }

  /** Any two quorums share a validator that is not faulty. */
  lemma QuorumsShareHonest(v: Verifier, a: set<Author>, b: set<Author>, faulty: set<Author>)
    requires v.Tolerates(faulty)
    requires v.IsQuorum(a) && v.IsQuorum(b)
    ensures exists h :: h in a && h in b && h in v.Authors() && h !in faulty
  {
    PowerModular(v.infos, a, b);
    PowerMonotone(v.infos, a + b, v.Authors());
    assert v.PowerOf(a * b) > v.PowerOf(faulty);
    if forall h :: h in a && h in b ==> h in faulty {
      PowerMonotone(v.infos, a * b, faulty);
      assert false;
    }
    var h :| h in a && h in b && h !in faulty;
    assert h in v.Authors();
  }

  /** A set of one validator. */
  function Alone(): Verifier {
    Verifier([ValidatorInfo(0, 1, 0)])
  }

  lemma AloneIsQuorum()
    ensures Alone().IsQuorum({0}) && Alone().Tolerates(Alone().Authors() - {0}) && Alone().KeyOf(0) == Some(0)
  {
    var v := Alone();
    assert v.infos[0].author == 0 && v.infos[1..] == [];
    assert v.Authors() == {0};
    assert PowerIn(v.infos, {0}) == 1 + PowerIn(v.infos[1..], {0});
    assert v.Authors() - {0} == {} && PowerIn(v.infos, {}) == PowerIn(v.infos[1..], {});
  }
}

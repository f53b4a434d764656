/** Vocabulary shared by every table: messages, categories, policy actions (models.py). */
module Mail {

  datatype Option<+T> = None | Some(value: T)

  datatype Result<+T> = Ok(value: T) | Rejected

  datatype Provider = Gmail | Yahoo | Fixture

  datatype Category =
    | Advertising | Banking | Important | MedicalLegal | OneTimeCode | Personal | School
    | Security | Social | Spam | Transactional | Other | Uncertain

  datatype PolicyAction = Keep | Review | LabelReview | Quarantine

  datatype Answer = AnswerKeep | AnswerDontKeep | AnswerUnsure

  // The store only sees the HMAC of (account, "message:{provider}:{id}").  The HMAC is taken to be
  // injective, so the digest is modelled as the material it was computed from.
  datatype MessageKey = MessageKey(account: string, provider: Provider, id: string)

  // Primary key (account_id, message_hash, scan_profile) of every per-profile table.
  datatype RowKey = RowKey(message: MessageKey, profile: string)

  predicate NoDuplicates<T(==)>(s: seq<T>) {
    forall i, j :: 0 <= i < j < |s| ==> s[i] != s[j]
  }

  function Elements<T(==,!new)>(s: seq<T>): (elements: set<T>)
    ensures forall x :: x in elements <==> x in s
  {
    set x | x in s
  }

  // dict.fromkeys: the first occurrence of every element, in order.
  function Deduplicated<T(==,!new)>(s: seq<T>): (r: seq<T>)
    ensures |r| <= |s|
    ensures forall x :: x in r <==> x in s
    ensures NoDuplicates(r)
  {
    if s == [] then []
    else
      var rest := Deduplicated(s[..|s| - 1]);
      var last := s[|s| - 1];
      assert forall x :: x in s <==> x in s[..|s| - 1] || x == last;
      if last in rest then rest else rest + [last]
  }

  lemma {:induction false} DeduplicatedDistinct<T(!new)>(s: seq<T>)
    requires NoDuplicates(s)
    ensures Deduplicated(s) == s
  {
    if s != [] {
      DeduplicatedDistinct(s[..|s| - 1]);
      assert s == s[..|s| - 1] + [s[|s| - 1]];
    }
  }

  function Min(a: nat, b: nat): nat { if a <= b then a else b }

  lemma SubsetSize<T>(a: set<T>, b: set<T>)
    requires a <= b
    ensures |a| <= |b| && (|a| == |b| ==> a == b)
  {
    assert b == a + (b - a);
    if |a| == |b| {
      assert |b - a| == 0;
    }
  }

  lemma {:induction false} ElementsSize<T(!new)>(s: seq<T>)
    requires NoDuplicates(s)
    ensures |Elements(s)| == |s|
  {
    if s == [] {
      assert Elements(s) == {};
    } else {
      var before, last := s[..|s| - 1], s[|s| - 1];
      ElementsSize(before);
      assert s == before + [last];
      assert Elements(s) == Elements(before) + {last} && last !in before;
    }
  }

  lemma {:induction false} OnceInBag<T>(s: seq<T>, x: T)
    requires NoDuplicates(s)
    ensures multiset(s)[x] == if x in s then 1 else 0
  {
    if s != [] {
      var before := s[..|s| - 1];
      assert s == before + [s[|s| - 1]];
      OnceInBag(before, x);
    }
  }
}

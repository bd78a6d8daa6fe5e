// Recovery of a distribution id from an error message by the pattern
// [A-Z0-9]{14}.
module DistributionId {
  const ID_LENGTH := 14

  predicate IdChar(c: char) {
    'A' <= c <= 'Z' || '0' <= c <= '9'
  }

  predicate IsId(s: string) {
    |s| == ID_LENGTH && forall i :: 0 <= i < ID_LENGTH ==> IdChar(s[i])
  }

  // Fourteen characters, each a capital letter or a digit, by their codes.
  lemma IdShape(s: string)
    ensures IsId(s) <==>
            |s| == 14 && forall i :: 0 <= i < |s| ==> 65 <= s[i] as int <= 90 || 48 <= s[i] as int <= 57
  {
    assert forall c: char :: IdChar(c) <==> 65 <= c as int <= 90 || 48 <= c as int <= 57;
  }

  predicate MatchAt(s: string, i: nat) {
    i + ID_LENGTH <= |s| && IsId(s[i..i + ID_LENGTH])
  }

  // re.FindString: the first window that matches, or the empty string.
  function FindId(s: string): string {
    if |s| < ID_LENGTH then "" else if MatchAt(s, 0) then s[..ID_LENGTH] else FindId(s[1..])
  }

  lemma MatchInTail(s: string, i: nat)
    requires s != []
    ensures MatchAt(s, i + 1) <==> MatchAt(s[1..], i)
    ensures i + ID_LENGTH < |s| ==> s[i + 1..i + 1 + ID_LENGTH] == s[1..][i..i + ID_LENGTH]
  {
    if i + ID_LENGTH < |s| { assert s[i + 1..i + 1 + ID_LENGTH] == s[1..][i..i + ID_LENGTH]; }
  }

  // The first window that matches is the result.
  lemma {:induction false} FindIdAt(s: string, i: nat)
    requires MatchAt(s, i) && forall j: nat :: j < i ==> !MatchAt(s, j)
    ensures FindId(s) == s[i..i + ID_LENGTH]
  {
    if i == 0 {
    } else {
      assert !MatchAt(s, 0);
      MatchInTail(s, i - 1);
      forall j: nat | j < i - 1 ensures !MatchAt(s[1..], j) {
        assert !MatchAt(s, j + 1);
        MatchInTail(s, j);
      }
      FindIdAt(s[1..], i - 1);
    }
  }

  lemma {:induction false} LeastMatch(s: string, i: nat) returns (k: nat)
    requires MatchAt(s, i)
    ensures MatchAt(s, k) && forall j: nat :: j < k ==> !MatchAt(s, j)
  {
    if j: nat :| j < i && MatchAt(s, j) {
      k := LeastMatch(s, j);
    } else {
      k := i;
    }
  }

  lemma {:induction false} NoMatchNoId(s: string)
    requires forall i: nat :: !MatchAt(s, i)
    ensures FindId(s) == ""
  {
    if |s| < ID_LENGTH {
    } else {
      assert !MatchAt(s, 0);
      forall i: nat ensures !MatchAt(s[1..], i) {
        assert !MatchAt(s, i + 1);
        MatchInTail(s, i);
      }
      NoMatchNoId(s[1..]);
    }
  }

  // The result is the leftmost match, and it is empty exactly when no window
  // matches.
  lemma {:induction false} FindIdIsLeftmost(s: string)
    ensures FindId(s) == "" <==> forall i: nat :: !MatchAt(s, i)
    ensures FindId(s) != "" ==>
              exists i: nat ::
                MatchAt(s, i) && FindId(s) == s[i..i + ID_LENGTH] && forall j: nat :: j < i ==> !MatchAt(s, j)
  {
    if i: nat :| MatchAt(s, i) {
      var k := LeastMatch(s, i);
      FindIdAt(s, k);
      assert |FindId(s)| == ID_LENGTH;
    } else {
      NoMatchNoId(s);
    }
  }

  ghost predicate NamesAt(message: string, id: string, k: nat) {
    && k + ID_LENGTH <= |message| && message[k..k + ID_LENGTH] == id
    && (k > 0 ==> !IdChar(message[k - 1]))
    && forall i: nat :: i < k ==> !MatchAt(message[..k], i)
  }

  // A message that ends in an id, where nothing before it can be mistaken for
  // one, possibly continued by more text.
  ghost predicate Names(message: string, id: string) {
    IsId(id) && exists k: nat :: NamesAt(message, id, k)
  }

  lemma NamedIdIsFound(message: string, id: string)
    requires Names(message, id)
    ensures FindId(message) == id
  {
    var k: nat :| NamesAt(message, id, k);
    forall i: nat | i < k ensures !MatchAt(message, i) {
      if i + ID_LENGTH <= k {
        assert message[..k][i..i + ID_LENGTH] == message[i..i + ID_LENGTH];
        assert !MatchAt(message[..k], i);
      } else if i + ID_LENGTH <= |message| {
        assert message[i..i + ID_LENGTH][k - 1 - i] == message[k - 1];
      }
    }
    FindIdAt(message, k);
  }

  // The shape of the service's message: a prefix holding no id and not ending
  // in an id character, then the id.
  lemma PrefixThenIdIsFound(prefix: string, id: string)
    requires IsId(id)
    requires prefix == "" || !IdChar(prefix[|prefix| - 1])
    requires forall i: nat :: !MatchAt(prefix, i)
    ensures FindId(prefix + id) == id
  {
    var m := prefix + id;
    assert m[..|prefix|] == prefix;
    assert m[|prefix|..|prefix| + ID_LENGTH] == id;
    assert NamesAt(m, id, |prefix|);
    NamedIdIsFound(m, id);
  }
}

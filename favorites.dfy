/** A user's list of favorite countries, as stored in the user record and
    mirrored by the client: an ordered sequence in which a country code is
    meant to occur at most once. */
module Favorites {
  import opened Common

  datatype Favorite = Favorite(countryCode: string, countryName: string, flagUrl: string)

  /** `favorites.some(f => f.countryCode === code)`; the server's
      `favoriteCountries.find(...)` is truthy exactly when this holds. */
  predicate HasCode(favorites: seq<Favorite>, code: string)
    ensures HasCode(favorites, code) <==> exists f | f in favorites :: f.countryCode == code
  {
    exists i | 0 <= i < |favorites| :: favorites[i].countryCode == code
  }

  /** No country code occurs twice. */
  predicate NoDuplicateCodes(favorites: seq<Favorite>)
  {
    forall i, j | 0 <= i < j < |favorites| :: favorites[i].countryCode != favorites[j].countryCode
  }

  /** `favorites.filter(f => f.countryCode !== code)`. */
  function WithoutCode(favorites: seq<Favorite>, code: string): (r: seq<Favorite>)
    ensures !HasCode(r, code)
    ensures forall f :: f in r <==> f in favorites && f.countryCode != code
    ensures IsSubsequence(r, favorites)
  {
    var r := Filter(favorites, (f: Favorite) => f.countryCode != code);
    FilterIsSubsequence(favorites, (f: Favorite) => f.countryCode != code);
    assert !HasCode(r, code) by {
      forall i | 0 <= i < |r| ensures r[i].countryCode != code {
        assert r[i] in r;
      }
    }
    r
  }

  /** Removing a code keeps every other entry exactly as often as it occurred. */
  lemma WithoutCodeCounts(favorites: seq<Favorite>, code: string, f: Favorite)
    ensures multiset(WithoutCode(favorites, code))[f] ==
            if f.countryCode == code then 0 else multiset(favorites)[f]
  {
    FilterCounts(favorites, (x: Favorite) => x.countryCode != code, f);
  }

  /** Removing a code that is absent gives the list back unchanged. */
  lemma WithoutAbsentCode(favorites: seq<Favorite>, code: string)
    requires !HasCode(favorites, code)
    ensures WithoutCode(favorites, code) == favorites
  {
    FilterKeepsAll(favorites, (f: Favorite) => f.countryCode != code);
  }

  /** Removing is idempotent. */
  lemma WithoutCodeIdempotent(favorites: seq<Favorite>, code: string)
    ensures WithoutCode(WithoutCode(favorites, code), code) == WithoutCode(favorites, code)
  {
    WithoutAbsentCode(WithoutCode(favorites, code), code);
  }

  /** Appending an entry whose code is new keeps the codes distinct. */
  lemma AppendKeepsNoDuplicates(favorites: seq<Favorite>, f: Favorite)
    requires NoDuplicateCodes(favorites) && !HasCode(favorites, f.countryCode)
    ensures NoDuplicateCodes(favorites + [f])
  {
    var s := favorites + [f];
    forall i, j | 0 <= i < j < |s| ensures s[i].countryCode != s[j].countryCode {
      if j == |favorites| {
        assert s[i] == favorites[i];
      }
    }
  }

  /** Removing any code keeps the codes distinct. */
  lemma {:induction false} WithoutCodeKeepsNoDuplicates(favorites: seq<Favorite>, code: string)
    requires NoDuplicateCodes(favorites)
    ensures NoDuplicateCodes(WithoutCode(favorites, code))
  {
    if favorites != [] {
      var tail := favorites[1..];
      WithoutCodeKeepsNoDuplicates(tail, code);
      var rest := WithoutCode(tail, code);
      if favorites[0].countryCode != code {
        assert WithoutCode(favorites, code) == [favorites[0]] + rest;
        forall j | 0 <= j < |rest| ensures rest[j].countryCode != favorites[0].countryCode {
          assert rest[j] in tail;
          var k :| 0 <= k < |tail| && tail[k] == rest[j];
          assert favorites[k + 1] == rest[j];
        }
      } else {
        assert WithoutCode(favorites, code) == rest;
      }
    }
  }

  /** Adding a fresh code and then removing it restores the original list. */
  lemma AddThenRemoveRestores(favorites: seq<Favorite>, f: Favorite)
    requires !HasCode(favorites, f.countryCode)
    ensures WithoutCode(favorites + [f], f.countryCode) == favorites
  {
    var keep := (x: Favorite) => x.countryCode != f.countryCode;
    FilterAppend(favorites, [f], keep);
    FilterKeepsAll(favorites, keep);
    assert Filter([f], keep) == [];
  }

  /** A removal shortens the list exactly when the code was listed. */
  lemma {:induction false} WithoutCodeShrinks(favorites: seq<Favorite>, code: string)
    ensures |WithoutCode(favorites, code)| < |favorites| <==> HasCode(favorites, code)
  {
    if favorites != [] {
      var tail := favorites[1..];
      WithoutCodeShrinks(tail, code);
      var rest := WithoutCode(tail, code);
      if HasCode(tail, code) {
        var k :| 0 <= k < |tail| && tail[k].countryCode == code;
        assert favorites[k + 1].countryCode == code;
      }
      if favorites[0].countryCode != code {
        assert WithoutCode(favorites, code) == [favorites[0]] + rest;
        if HasCode(favorites, code) {
          var k :| 0 <= k < |favorites| && favorites[k].countryCode == code;
          assert tail[k - 1].countryCode == code;
        }
      } else {
        assert WithoutCode(favorites, code) == rest;
      }
    }
  }

  /** The list after an add request: unchanged when the code is already
      listed, otherwise with `f` appended. */
  function WithFavorite(favorites: seq<Favorite>, f: Favorite): (r: seq<Favorite>)
    ensures HasCode(r, f.countryCode)
    ensures forall g | g in favorites :: g in r
    ensures NoDuplicateCodes(favorites) ==> NoDuplicateCodes(r)
    ensures !HasCode(favorites, f.countryCode) ==> WithoutCode(r, f.countryCode) == favorites
    ensures HasCode(favorites, f.countryCode) ==> r == favorites
    ensures !HasCode(favorites, f.countryCode) ==> r == favorites + [f]
  {
    if HasCode(favorites, f.countryCode) then favorites
    else
      var r := favorites + [f];
      assert r[|favorites|] == f;
      AddThenRemoveRestores(favorites, f);
      if NoDuplicateCodes(favorites) then
        AppendKeepsNoDuplicates(favorites, f);
        r
      else r
  }

  /** How many entries carry `code`. */
  function CodeCount(favorites: seq<Favorite>, code: string): nat
  {
    if favorites == [] then 0
    else (if favorites[0].countryCode == code then 1 else 0) + CodeCount(favorites[1..], code)
  }

  lemma {:induction false} CodeCountZero(favorites: seq<Favorite>, code: string)
    ensures CodeCount(favorites, code) == 0 <==> !HasCode(favorites, code)
  {
    if favorites != [] {
      CodeCountZero(favorites[1..], code);
      if HasCode(favorites[1..], code) {
        var k :| 0 <= k < |favorites| - 1 && favorites[1..][k].countryCode == code;
        assert favorites[k + 1].countryCode == code;
      }
      if HasCode(favorites, code) && favorites[0].countryCode != code {
        var k :| 0 <= k < |favorites| && favorites[k].countryCode == code;
        assert favorites[1..][k - 1].countryCode == code;
      }
    }
  }

  lemma {:induction false} CodeCountAppend(favorites: seq<Favorite>, f: Favorite, code: string)
    ensures CodeCount(favorites + [f], code) ==
            CodeCount(favorites, code) + (if f.countryCode == code then 1 else 0)
  {
    if favorites == [] {
      assert favorites + [f] == [f];
    } else {
      CodeCountAppend(favorites[1..], f, code);
      assert (favorites + [f])[1..] == favorites[1..] + [f];
    }
  }

  /** After adding a fresh code the list holds exactly one entry with it. */
  lemma AddedCodeOccursOnce(favorites: seq<Favorite>, f: Favorite)
    requires !HasCode(favorites, f.countryCode)
    ensures CodeCount(favorites + [f], f.countryCode) == 1
  {
    CodeCountZero(favorites, f.countryCode);
    CodeCountAppend(favorites, f, f.countryCode);
  }
}

/** The unified read's response merger: profile-service fields overlaid on the auth service's
    `user` object. */
module ResponseMerge {
  import opened Json

  /** The nine copies the read performs, in order: (`user` key, profile-service key). */
  const MergePairs: seq<(string, string)> := [
    ("bio", "bio"),
    ("nickname", "nickname"),
    ("personalUrl", "personal_url"),
    ("organization", "organization"),
    ("country", "country"),
    ("profileVisibility", "profile_visibility"),
    ("githubUrl", "github_url"),
    ("linkedinUrl", "linkedin_url"),
    ("twitterUrl", "twitter_url")
  ]

  /** The copies in `pairs`, applied one after another: each one whose profile key is present
      (even with a null value) sets its `user` key to that value. */
  function Overlay(user: map<string, Json>, profile: map<string, Json>, pairs: seq<(string, string)>): map<string, Json>
  {
    if pairs == [] then user
    else
      var before := Overlay(user, profile, pairs[..|pairs| - 1]);
      var (tgt, src) := pairs[|pairs| - 1];
      if src in profile then before[tgt := profile[src]] else before
  }

  /** The merged `user` object of a unified read. */
  function MergeUser(user: map<string, Json>, profile: map<string, Json>): map<string, Json>
  {
    Overlay(user, profile, MergePairs)
  }

  /** Whether some copy in `pairs` writes `user` key `k` from this profile document. */
  predicate Filled(k: string, profile: map<string, Json>, pairs: seq<(string, string)>)
  {
    exists i | 0 <= i < |pairs| :: pairs[i].0 == k && pairs[i].1 in profile
  }

  predicate DistinctTargets(pairs: seq<(string, string)>)
  {
    forall i, j | 0 <= i < j < |pairs| :: pairs[i].0 != pairs[j].0
  }

  /** What an overlay with distinct targets computes: every copy whose source is present lands
      in its target, every other `user` entry is kept as it was, and no other key appears. */
  lemma {:induction false} OverlaySpec(user: map<string, Json>, profile: map<string, Json>, pairs: seq<(string, string)>)
    requires DistinctTargets(pairs)
    ensures forall i | 0 <= i < |pairs| && pairs[i].1 in profile ::
      pairs[i].0 in Overlay(user, profile, pairs) && Overlay(user, profile, pairs)[pairs[i].0] == profile[pairs[i].1]
    ensures forall k | k in user && !Filled(k, profile, pairs) ::
      k in Overlay(user, profile, pairs) && Overlay(user, profile, pairs)[k] == user[k]
    ensures forall k | k in Overlay(user, profile, pairs) :: k in user || Filled(k, profile, pairs)
  {
    if pairs != [] {
      var init := pairs[..|pairs| - 1];
      var (tgt, src) := pairs[|pairs| - 1];
      OverlaySpec(user, profile, init);
      var before := Overlay(user, profile, init);
      var after := Overlay(user, profile, pairs);
      forall i | 0 <= i < |pairs| && pairs[i].1 in profile
        ensures pairs[i].0 in after && after[pairs[i].0] == profile[pairs[i].1]
      {
        if i < |pairs| - 1 {
          assert init[i] == pairs[i];
        }
      }
      forall k | k in user && !Filled(k, profile, pairs)
        ensures k in after && after[k] == user[k]
      {
        assert !Filled(k, profile, init) by {
          forall i | 0 <= i < |init| ensures init[i] == pairs[i] {
          }
        }
      }
      forall k | k in after && k !in user ensures Filled(k, profile, pairs) {
        if k == tgt && src in profile {
          assert pairs[|pairs| - 1].0 == k;
        } else {
          var i :| 0 <= i < |init| && init[i].0 == k && init[i].1 in profile;
          assert pairs[i] == init[i];
        }
      }
    }
  }

  lemma MergePairsDistinct()
    ensures DistinctTargets(MergePairs)
  {
  }

  /** One presence check of the read handler: copy profile key `src` into `user` key `tgt`
      when the profile document has it. */
  method CopyIfPresent(merged: map<string, Json>, profile: map<string, Json>, src: string, tgt: string,
                       ghost user: map<string, Json>, ghost n: nat)
    returns (out: map<string, Json>)
    requires n < |MergePairs| && MergePairs[n] == (tgt, src)
    requires merged == Overlay(user, profile, MergePairs[..n])
    ensures out == Overlay(user, profile, MergePairs[..n + 1])
  {
    assert MergePairs[..n + 1][..n] == MergePairs[..n];
    out := merged;
    if src in profile {
      out := merged[tgt := profile[src]];
    }
  }

  /** The read handler's nine presence checks, in source order. */
  method MergeProfileFields(userObj: map<string, Json>, profileData: map<string, Json>) returns (merged: map<string, Json>)
    ensures merged == MergeUser(userObj, profileData)
  {
    merged := userObj;
    merged := CopyIfPresent(merged, profileData, "bio", "bio", userObj, 0);
    merged := CopyIfPresent(merged, profileData, "nickname", "nickname", userObj, 1);
    merged := CopyIfPresent(merged, profileData, "personal_url", "personalUrl", userObj, 2);
    merged := CopyIfPresent(merged, profileData, "organization", "organization", userObj, 3);
    merged := CopyIfPresent(merged, profileData, "country", "country", userObj, 4);
    merged := CopyIfPresent(merged, profileData, "profile_visibility", "profileVisibility", userObj, 5);
    merged := CopyIfPresent(merged, profileData, "github_url", "githubUrl", userObj, 6);
    merged := CopyIfPresent(merged, profileData, "linkedin_url", "linkedinUrl", userObj, 7);
    merged := CopyIfPresent(merged, profileData, "twitter_url", "twitterUrl", userObj, 8);
    assert MergePairs[..9] == MergePairs;
  }
}

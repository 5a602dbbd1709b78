/** Choosing the account a run works for (main.py lines 16-29), from the
    saved-collection files already on disk, `--user` and `--url`. */
module Accounts {
  import opened Wrappers

  /** Every saved collection lives in a file whose stem starts with this. */
  const SavedPrefix := "saved_"

  datatype ResolveError =
    | MustSpecifyUrl                      // no saved file and no `--url`
    | MustSpecifyUser(options: seq<string>) // more than one saved file; the raw stems
    | NoUserParam(url: string)            // `--url` has no `user` query parameter

  /** Python truthiness of an optional string argument: both None and the
      empty string count as "not given". */
  predicate Given(arg: Option<string>)
  {
    arg.Some? && arg.value != ""
  }

  /** The account a single saved file belongs to, as intended: its stem with
      the leading prefix removed, so that the run reopens that same file. */
  function StemAccount(stem: string): (account: string)
    ensures SavedPrefix <= stem ==> SavedPrefix + account == stem
    ensures !(SavedPrefix <= stem) ==> account == stem
  {
    if SavedPrefix <= stem then stem[|SavedPrefix|..] else stem
  }

  /** `stem.replace("saved_", "")` as written: a left-to-right scan that
      drops EVERY non-overlapping occurrence of the prefix, wherever it is. */
  function ReplaceSavedAsWritten(s: string): (r: string)
    ensures |r| <= |s|
    decreases |s|
  {
    if |s| < |SavedPrefix| then s
    else if s[..|SavedPrefix|] == SavedPrefix then ReplaceSavedAsWritten(s[|SavedPrefix|..])
    else [s[0]] + ReplaceSavedAsWritten(s[1..])
  }

  /** The prefix occurs in `s` starting at index `i`. */
  predicate OccursAt(s: string, i: nat)
  {
    i + |SavedPrefix| <= |s| && s[i..i + |SavedPrefix|] == SavedPrefix
  }

  ghost predicate Mentions(s: string)
  {
    exists i: nat :: OccursAt(s, i)
  }

  lemma {:induction false} ReplaceSavedUntouched(s: string)
    requires !Mentions(s)
    ensures ReplaceSavedAsWritten(s) == s
    decreases |s|
  {
    if |s| >= |SavedPrefix| {
      assert !OccursAt(s, 0);
      assert s[..|SavedPrefix|] != SavedPrefix;
      forall i: nat | OccursAt(s[1..], i) ensures OccursAt(s, i + 1) {
        assert s[1..][i..i + |SavedPrefix|] == s[i + 1..i + 1 + |SavedPrefix|];
      }
      ReplaceSavedUntouched(s[1..]);
    }
  }

  lemma {:induction false} ReplaceSavedShrinks(s: string, i: nat)
    requires OccursAt(s, i)
    ensures |ReplaceSavedAsWritten(s)| < |s|
    decreases |s|
  {
    if s[..|SavedPrefix|] != SavedPrefix {
      assert i != 0;
      assert s[1..][i - 1..i - 1 + |SavedPrefix|] == s[i..i + |SavedPrefix|];
      ReplaceSavedShrinks(s[1..], i - 1);
    }
  }

  /** The as-written replacement leaves a string alone exactly when the
      prefix does not occur in it. */
  lemma ReplaceSavedIdentityIff(s: string)
    ensures ReplaceSavedAsWritten(s) == s <==> !Mentions(s)
  {
    if Mentions(s) {
      var i: nat :| OccursAt(s, i);
      ReplaceSavedShrinks(s, i);
    } else {
      ReplaceSavedUntouched(s);
    }
  }

  /** For an account name that does not itself contain the prefix, the
      as-written replacement and the intended prefix strip agree. */
  lemma ReplaceSavedAgrees(account: string)
    requires !Mentions(account)
    ensures ReplaceSavedAsWritten(SavedPrefix + account) == StemAccount(SavedPrefix + account) == account
  {
    var stem := SavedPrefix + account;
    assert stem[..|SavedPrefix|] == SavedPrefix;
    assert stem[|SavedPrefix|..] == account;
    ReplaceSavedUntouched(account);
  }

  /** The account "a_saved_b" is saved in "saved_a_saved_b.json", but the
      as-written replacement turns that stem into "a_b", an account whose
      file is a different one. */
  lemma ReplaceSavedLosesAccount()
    ensures ReplaceSavedAsWritten("saved_a_saved_b") == "a_b"
    ensures SavedPrefix + ReplaceSavedAsWritten("saved_a_saved_b") != "saved_a_saved_b"
    ensures StemAccount("saved_a_saved_b") == "a_saved_b"
  {
    var stem := "saved_a_saved_b";
    assert stem[..6] == SavedPrefix;
    assert stem[6..] == "a_saved_b";
    assert "a_saved_b"[0] != SavedPrefix[0];
    assert "a_saved_b"[1..] == "_saved_b";
    assert "_saved_b"[0] != SavedPrefix[0];
    assert "_saved_b"[1..] == "saved_b";
    assert "saved_b"[..6] == SavedPrefix;
    assert "saved_b"[6..] == "b";
    assert ReplaceSavedAsWritten("b") == "b";
    assert ReplaceSavedAsWritten("saved_b") == "b";
    assert ReplaceSavedAsWritten("_saved_b") == "_b";
    assert ReplaceSavedAsWritten("a_saved_b") == "a_b";
  }

  /** The branch chain of main.py lines 17-27, in its order: the "more than
      one file" error is tested BEFORE `--user`. `userQuery` stands for
      reading the first `user` query parameter of a URL, which may be absent. */
  function Resolve(stems: seq<string>, user: Option<string>, url: Option<string>,
                   userQuery: string -> Option<string>): (r: Result<string, ResolveError>)
    ensures r == Failure(MustSpecifyUrl) <==> |stems| == 0 && !Given(url)
    ensures r.Failure? && r.error.MustSpecifyUser? <==> |stems| > 1
    ensures r.Failure? && r.error.MustSpecifyUser? ==> r.error.options == stems
    ensures r.Failure? && r.error.NoUserParam? <==>
              |stems| <= 1 && !Given(user) && Given(url) && userQuery(url.value).None?
    ensures r.Failure? && r.error.NoUserParam? ==> r.error.url == url.value
    ensures r.Success? && Given(user) ==> r.value == user.value
    ensures r.Success? && !Given(user) && Given(url) ==> userQuery(url.value) == Some(r.value)
    ensures r.Success? && !Given(user) && !Given(url) ==>
              |stems| == 1 && r.value == ReplaceSavedAsWritten(stems[0])
  {
    if |stems| == 0 && !Given(url) then Failure(MustSpecifyUrl)
    else if |stems| > 1 then Failure(MustSpecifyUser(stems))
    else if Given(user) then Success(user.value)
    else if Given(url) then
      match userQuery(url.value)
      case Some(account) => Success(account)
      case None => Failure(NoUserParam(url.value))
    else Success(ReplaceSavedAsWritten(stems[0]))
  }

  /** The single-file fallback reopens the file it found whenever the account
      name in that file's stem does not itself contain the prefix. */
  lemma ResolveFallbackRoundTrip(stem: string, userQuery: string -> Option<string>)
    requires SavedPrefix <= stem && !Mentions(stem[|SavedPrefix|..])
    ensures Resolve([stem], None, None, userQuery).Success?
    ensures SavedPrefix + Resolve([stem], None, None, userQuery).value == stem
  {
    var account := stem[|SavedPrefix|..];
    assert stem == SavedPrefix + account;
    ReplaceSavedAgrees(account);
  }

  /** The single file `saved_a_saved_b.json` and no arguments: the run
      resolves account "a_b", whose file is a different one. */
  lemma ResolveFallbackLosesAccount(userQuery: string -> Option<string>)
    ensures Resolve(["saved_a_saved_b"], None, None, userQuery) == Success("a_b")
    ensures SavedPrefix + "a_b" != "saved_a_saved_b"
  {
    ReplaceSavedLosesAccount();
  }

  /** Two saved accounts and no arguments: the run stops and lists both
      stems, prefix included. */
  lemma AmbiguousExample(userQuery: string -> Option<string>)
    ensures Resolve(["saved_alice", "saved_bob"], None, None, userQuery)
            == Failure(MustSpecifyUser(["saved_alice", "saved_bob"]))
  {
  }

  /** `--user` does not help once two collections exist. */
  lemma UserIgnoredWhenAmbiguous(stems: seq<string>, user: string, url: Option<string>,
                                 userQuery: string -> Option<string>)
    requires |stems| > 1
    ensures Resolve(stems, Some(user), url, userQuery).Failure?
  {
  }
}

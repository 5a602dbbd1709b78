/** One run of main.py's `main` (lines 14-60) over an in-memory picture of
    the configuration directory: the URL registry `urls.json` and the
    `saved_<account>.json` collections. Fetching the feed and reading the
    `user` query parameter are passed in as functions. */
module Backup {
  import opened Wrappers
  import opened FeedMerge
  import opened Accounts

  /** The saved collection of one account while a run works on it (the
      dictionary `saved` of main.py, updated in place). */
  class SavedStore<P> {
    var items: map<string, P>

    constructor (loaded: map<string, P>)
      ensures items == loaded
    {
      items := loaded;
    }

    /** `saved.update(savedNew)`. */
    method Update(fetched: map<string, P>)
      modifies this
      ensures items == Merged(old(items), fetched)
      ensures items.Keys == old(items).Keys + fetched.Keys
      ensures forall k :: k in fetched ==> items[k] == fetched[k]
      ensures forall k :: k in old(items) && k !in fetched ==> items[k] == old(items)[k]
      ensures |items| == |old(items)| + |NewKeys(fetched, old(items))|
    {
      MergedSize(items, fetched);
      items := items + fetched;
    }
  }

  datatype RunError =
    | Unresolved(reason: ResolveError)   // account resolution failed
    | UnknownAccount(account: string)    // `urls[user]` raises KeyError
    | NoFeedUrl(account: string)         // the registry holds null for the account
    | FetchFailed(url: string)           // transport or parse failure of the feed

  /** What a successful run reports: the account, the URL it fetched, the
      new keys (their number is the "new saved posts" count), whether the
      saturation warning fired, and the final total. */
  datatype Report = Report(account: string, feedUrl: string, newKeys: set<string>,
                           warned: bool, total: nat)

  /** The configuration directory as the run sees it. */
  class ConfigDir<P> {
    /** `urls.json`: None when the file does not exist. A value is null when
        the registry was created without `--url`. */
    var registry: Option<map<string, Option<string>>>
    /** The stems matched by `saved_*.json`, in listing order. */
    var listing: seq<string>
    /** The contents of each `saved_*.json`, by stem. */
    var collections: map<string, map<string, P>>

    ghost predicate Valid()
      reads this
    {
      && (forall i, j :: 0 <= i < j < |listing| ==> listing[i] != listing[j])
      && (forall stem :: stem in listing <==> stem in collections)
      && (forall stem :: stem in collections ==> SavedPrefix <= stem)
    }

    constructor (registry: Option<map<string, Option<string>>>, listing: seq<string>,
                 collections: map<string, map<string, P>>)
      requires forall i, j :: 0 <= i < j < |listing| ==> listing[i] != listing[j]
      requires forall stem :: stem in listing <==> stem in collections
      requires forall stem :: stem in collections ==> SavedPrefix <= stem
      ensures Valid()
      ensures this.registry == registry && this.listing == listing && this.collections == collections
    {
      this.registry := registry;
      this.listing := listing;
      this.collections := collections;
    }

    /** The stored collection of a stem; empty when no such file exists. */
    ghost function Stored(stem: string): map<string, P>
      reads this
    {
      if stem in collections then collections[stem] else map[]
    }

    /** The registry the run consults: the loaded one if it exists, otherwise
        the one it creates from the resolved account and `--url`. */
    ghost function RegistryFor(account: string, url: Option<string>): map<string, Option<string>>
      reads this
    {
      if registry.Some? then registry.value else map[account := url]
    }

    method Run(user: Option<string>, url: Option<string>,
               userQuery: string -> Option<string>,
               fetch: string -> Option<seq<Child<P>>>) returns (outcome: Result<Report, RunError>)
      requires Valid()
      modifies this
      ensures Valid()
      // Resolution errors return before anything is written.
      ensures var res := Resolve(old(listing), user, url, userQuery);
              res.Failure? ==>
                && outcome == Failure(Unresolved(res.error))
                && registry == old(registry) && listing == old(listing) && collections == old(collections)
      // Once an account is known, an existing registry is kept as loaded and a
      // missing one is created holding exactly that account and `--url`.
      ensures var res := Resolve(old(listing), user, url, userQuery);
              res.Success? ==> registry == Some(old(RegistryFor(res.value, url)))
      // Lookup, null URL and fetch errors leave every collection as it was.
      ensures outcome.Failure? ==> listing == old(listing) && collections == old(collections)
      ensures var res := Resolve(old(listing), user, url, userQuery);
              res.Success? ==>
                var urls := old(RegistryFor(res.value, url));
                && (res.value !in urls ==> outcome == Failure(UnknownAccount(res.value)))
                && (res.value in urls && urls[res.value].None? ==> outcome == Failure(NoFeedUrl(res.value)))
                && (res.value in urls && urls[res.value].Some? && fetch(urls[res.value].value).None? ==>
                      outcome == Failure(FetchFailed(urls[res.value].value)))
      // Once the account has a URL and its fetch succeeds, the run succeeds
      // (whether or not the saturation warning fires).
      ensures var res := Resolve(old(listing), user, url, userQuery);
              res.Success? ==>
                var urls := old(RegistryFor(res.value, url));
                (res.value in urls && urls[res.value].Some? && fetch(urls[res.value].value).Some?
                 ==> outcome.Success?)
      // A successful run fetched `urls[account]` and merged what came back
      // into that account's collection; no other collection changes.
      ensures outcome.Success? ==>
                var rep := outcome.value;
                var stem := SavedPrefix + rep.account;
                && Resolve(old(listing), user, url, userQuery) == Success(rep.account)
                && var urls := old(RegistryFor(rep.account, url));
                && rep.account in urls && urls[rep.account] == Some(rep.feedUrl)
                && fetch(rep.feedUrl).Some?
                && var fetched := FetchedItems(fetch(rep.feedUrl).value);
                && var existing := old(Stored(stem));
                && rep.newKeys == NewKeys(fetched, existing)
                && rep.warned == Saturated(|rep.newKeys|)
                && rep.total == |existing| + |rep.newKeys|
                && collections == old(collections)[stem := Merged(existing, fetched)]
                && listing == old(listing) + (if stem in old(collections) then [] else [stem])
    {
      var resolved := ResolveAccount(user, url, userQuery);
      if resolved.Failure? {
        return Failure(Unresolved(resolved.error));
      }
      var account := resolved.value;

      var urls: map<string, Option<string>>;
      if registry.Some? {
        urls := registry.value;
      } else {
        urls := map[account := url];
        registry := Some(urls);
      }
      if account !in urls {
        return Failure(UnknownAccount(account));
      }
      var feedUrl := urls[account];
      if feedUrl.None? {
        return Failure(NoFeedUrl(account));
      }
      var response := fetch(feedUrl.value);
      if response.None? {
        return Failure(FetchFailed(feedUrl.value));
      }
      var savedNew := FetchedItems(response.value);
      var keysDiff, warned, total := MergeFetched(account, savedNew);
      outcome := Success(Report(account, feedUrl.value, keysDiff, warned, total));
    }

    /** The branch chain of main.py lines 17-27 that picks the account,
        written as the statements the source runs; `Resolve` is the same
        chain as an expression, and serves as this method's specification. */
    method ResolveAccount(user: Option<string>, url: Option<string>,
                          userQuery: string -> Option<string>) returns (r: Result<string, ResolveError>)
      ensures r == Resolve(listing, user, url, userQuery)
    {
      if |listing| == 0 && !Given(url) {
        return Failure(MustSpecifyUrl);
      } else if |listing| > 1 {
        return Failure(MustSpecifyUser(listing));
      } else if Given(user) {
        r := Success(user.value);
      } else if Given(url) {
        match userQuery(url.value)
        case None =>
          r := Failure(NoUserParam(url.value));
        case Some(account) =>
          r := Success(account);
      } else {
        r := Success(ReplaceSavedAsWritten(listing[0]));
      }
    }

    /** Lines 48-60: diff the fetched items against the stored collection
        of the account, merge them in place and write the result back. */
    method MergeFetched(account: string, savedNew: map<string, P>)
      returns (keysDiff: set<string>, warned: bool, total: nat)
      requires Valid()
      modifies this
      ensures Valid()
      ensures registry == old(registry)
      ensures var stem := SavedPrefix + account;
              var existing := old(Stored(stem));
              && keysDiff == NewKeys(savedNew, existing)
              && warned == Saturated(|keysDiff|)
              && total == |existing| + |keysDiff|
              && collections == old(collections)[stem := Merged(existing, savedNew)]
              && listing == old(listing) + (if stem in old(collections) then [] else [stem])
    {
      var stem := SavedPrefix + account;
      assert stem[..|SavedPrefix|] == SavedPrefix;
      var existing := if stem in collections then collections[stem] else map[];
      assert existing == Stored(stem);
      var saved := new SavedStore(existing);
      keysDiff := NewKeys(savedNew, existing);
      warned := Saturated(|keysDiff|);
      saved.Update(savedNew);
      total := |saved.items|;

      if stem !in collections {
        assert stem !in listing;
        listing := listing + [stem];
      }
      collections := collections[stem := saved.items];
    }
  }

  /** The single file "saved_a_saved_b.json", the registry written by that
      account's first run, and no arguments: the fallback resolves "a_b",
      which the registry does not hold, so the run stops at the lookup and
      no collection is read or written. */
  method FallbackRunMissesRegistry<P>(feedUrl: string, stored: map<string, P>,
                                      userQuery: string -> Option<string>,
                                      fetch: string -> Option<seq<Child<P>>>)
    returns (outcome: Result<Report, RunError>, collections: map<string, map<string, P>>)
    ensures outcome == Failure(UnknownAccount("a_b"))
    ensures collections == map["saved_a_saved_b" := stored]
  {
    var stem := "saved_a_saved_b";
    assert stem[..|SavedPrefix|] == SavedPrefix;
    var dir := new ConfigDir(Some(map["a_saved_b" := Some(feedUrl)]), [stem], map[stem := stored]);
    ResolveFallbackLosesAccount(userQuery);
    outcome := dir.Run(None, None, userQuery, fetch);
    collections := dir.collections;
  }

  /** The same file with no `urls.json`: the run creates the registry with a
      null URL for "a_b" and then fails, and that stored null makes every
      later run for "a_b" fail as well. */
  method FallbackRunStoresNullUrl<P>(stored: map<string, P>,
                                     userQuery: string -> Option<string>,
                                     fetch: string -> Option<seq<Child<P>>>)
    returns (outcome: Result<Report, RunError>, registry: Option<map<string, Option<string>>>)
    ensures outcome == Failure(NoFeedUrl("a_b"))
    ensures registry == Some(map["a_b" := None])
  {
    var stem := "saved_a_saved_b";
    assert stem[..|SavedPrefix|] == SavedPrefix;
    var dir := new ConfigDir(None, [stem], map[stem := stored]);
    ResolveFallbackLosesAccount(userQuery);
    outcome := dir.Run(None, None, userQuery, fetch);
    registry := dir.registry;
  }
}

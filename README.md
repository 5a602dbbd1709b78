# reddit_save_backup — a Dafny model of the incremental saved-posts backup

The program mirrors a Reddit user's "saved" JSON feed into a local store.
One run resolves which account it works for, reads (or creates) the URL
registry `urls.json`, fetches the feed, keys every fetched item by
`https://www.reddit.com` + its permalink, computes which keys are new,
warns when 1000 or more are new (the feed's page ceiling), merges the
fetched items into `saved_<account>.json` with last-write-wins, and writes
that file back.

The model has four modules:

- `Wrappers` (`wrappers.dfy`): `Option` and `Result`.
- `FeedMerge` (`feed_merge.dfy`): the pure parts — item keys, the dictionary
  comprehension over the fetched children, the new-key diff, the saturation
  test and the merge — with lemmas about them.
- `Accounts` (`accounts.dfy`): account resolution as a function `Resolve`
  following the source's branch order, and the stem-to-account step.
- `Backup` (`backup.dfy`): the configuration directory as a class
  `ConfigDir` whose fields are the registry, the listing of `saved_*.json`
  stems and the stored collections; its method `Run` is one run of `main`.
  `SavedStore` is the in-memory `saved` dictionary that `update` changes in
  place.

Inputs that come from outside are parameters: `--user` and `--url` are
`Option<string>` (None and the empty string are both "not given", as in
Python); reading the `user` query parameter of a URL is a function
`string -> Option<string>`; fetching and parsing the feed is a function
`string -> Option<seq<Child<P>>>` whose None stands for any transport or
parse failure. Payloads are an opaque type parameter `P`.

Behaviour of the code that the model keeps as it is:

- `--user` does not disambiguate: with more than one saved file the run
  fails with "must specify user" even when `--user` is given, because that
  branch is tested first (main.py:20-24).
- The candidate list in that error holds raw stems such as `saved_alice`,
  not account names (main.py:21).
- A registry created without `--url` (one saved file, no `urls.json`) stores
  null for the account; the fetch then fails, and the stored null makes every
  later run for that account fail too (main.py:36-40). The model keeps the
  value as `Option<string>` and reports `NoFeedUrl`.
- An existing `urls.json` is never extended: a new account, whether from
  `--user` or from the `user` parameter of `--url`, fails at `urls[user]`
  (main.py:32-40), and a new `--url` is ignored.
- The registry is written before the feed is fetched (main.py:37-42), so a
  failed fetch on a first run still leaves `urls.json` behind.
- With a single saved file and no arguments, the account is the file's stem
  with every occurrence of `saved_` removed, as `str.replace` does
  (main.py:27); see "## Findings" for where that goes wrong.

## Model

| member | source | states |
|---|---|---|
| FeedMerge.ItemKeyShape | main.py:45 | about `ItemKey`: a key starts with the fixed host and what follows the host is exactly the permalink |
| FeedMerge.ItemKeyInjective | main.py:45 | two permalinks with the same key are the same permalink |
| FeedMerge.FetchedItems | main.py:45-46 | the key set is exactly the set of host + permalink over all fetched children |
| FeedMerge.FetchedLastWins | main.py:45 | the payload stored under a permalink's key is that of the last child carrying that permalink |
| FeedMerge.FetchedDistinctSize | main.py:45 | with no repeated permalink the map has exactly one entry per child |
| FeedMerge.NewKeys | main.py:52-53 | the diff is a subset of the fetched keys, disjoint from the stored keys, and together with the stored keys covers every fetched key |
| FeedMerge.SaturationBoundary | main.py:55-56 | about `Saturated`: 999 new keys give no warning, 1000 give one |
| FeedMerge.Merged | main.py:57 | the merged key set is stored keys union fetched keys; fetched keys take the fetched payload; other keys keep their stored payload |
| FeedMerge.MergedSize | main.py:57-58 | the size after the merge is the old size plus the number of new keys |
| FeedMerge.MergedIdempotent | main.py:57 | merging the same fetch a second time changes nothing |
| FeedMerge.MergeExample | main.py:45-57 | stored /a and fetched /a, /b: the only new key is /b, and the result holds /a with its fresh payload and /b |
| Accounts.StemAccount | main.py:27 | corrected: the account of a `saved_` stem is the rest of the stem, so prefix + account gives back the stem |
| Accounts.ReplaceSavedAsWritten | main.py:27 | as written: `replace` never makes the stem longer |
| Accounts.ReplaceSavedUntouched | main.py:27 | a string without `saved_` in it is left unchanged by `replace` |
| Accounts.ReplaceSavedShrinks | main.py:27 | a string containing `saved_` anywhere comes back strictly shorter |
| Accounts.ReplaceSavedIdentityIff | main.py:27 | `replace` leaves a string unchanged if and only if `saved_` does not occur in it |
| Accounts.ReplaceSavedAgrees | main.py:27 | for an account name without `saved_` in it, `replace` and the prefix strip both give back the account |
| Accounts.ReplaceSavedLosesAccount | main.py:27-29 | the stem `saved_a_saved_b` becomes account `a_b`, whose file is a different stem |
| Accounts.Resolve | main.py:16-28 | "must specify URL" exactly when no file and no URL; "must specify user" with the stem list exactly when more than one file; the missing-parameter error exactly when the URL path is taken and has no `user`; otherwise `--user` verbatim, else the URL's `user`, else the single stem with every `saved_` removed |
| Accounts.ResolveFallbackRoundTrip | main.py:27-29 | in the single-file fallback, when the account part of the stem does not contain `saved_`, prefix + resolved account is that stem again, so the run reopens the file it found |
| Accounts.ResolveFallbackLosesAccount | main.py:27-29 | the single file `saved_a_saved_b` with no arguments resolves to account `a_b`, whose file is a different stem |
| Backup.FallbackRunMissesRegistry | main.py:27-40 | that run, with the registry `{"a_saved_b": url}`, fails with an unknown account `a_b` and leaves the collection as it was |
| Backup.FallbackRunStoresNullUrl | main.py:27-40 | that run, with no registry, fails for lack of a URL after writing the registry `{"a_b": null}` |
| Accounts.AmbiguousExample | main.py:20-23 | files for alice and bob and no arguments: the error lists `saved_alice` and `saved_bob` |
| Accounts.UserIgnoredWhenAmbiguous | main.py:20-25 | with more than one saved file, giving `--user` still fails |
| Backup.SavedStore.Update | main.py:57 | the new contents are the old merged with the fetched map: key union, fetched payloads win, others unchanged, size grows by the new-key count |
| Backup.ConfigDir.ResolveAccount | main.py:17-27 | the branch chain returns what `Resolve` specifies for the current listing |
| Backup.ConfigDir.MergeFetched | main.py:48-60 | reports the diff against the stored collection (empty if none), the warning flag, the total as old size plus new keys; only that account's collection changes, to the merge; the listing gains the stem if the file is new |
| Backup.ConfigDir.Run | main.py:14-60 | resolution errors write nothing; an existing registry is kept as loaded, a missing one is created as exactly {account: `--url`}; unknown account, null URL and fetch failure each return their error with no collection touched; when the account has a URL and the fetch succeeds the run succeeds, warning or not; on success the fetched URL is `urls[account]` and the account's collection becomes the merge of what was stored and what was fetched |

## Left out

- Fetching over HTTP (the User-Agent header, `urlopen`, decoding, main.py:40-44): a function parameter returning the parsed children or None.
- JSON encoding and decoding with `ujson` and its formatting flags: files are modelled as already-parsed maps, and the registry's values as a string or null.
- Filesystem mechanics (`appdirs`, `mkdir`, `glob`, `exists`, `open`): replaced by the fields of `ConfigDir`; the order of the listing is whatever the directory listing gives and is kept as a sequence.
- Backup.ConfigDir.MergeFetched: a newly written collection's stem is appended at the end of the listing; the source lists the directory afresh on every run, so that position is a modelling choice, not something the source promises (the same holds for `Run`).
- Logging through `kellog`: the error messages become `RunError`/`ResolveError` values, the counts and the warning flag are returned in `Report`.
- Query-string parsing (`urlparse`, `parse_qs`): a function parameter that returns the first `user` value or None.
- Command-line parsing (`parse_args`, main.py:65-70).
- Files whose JSON is not an object of the expected shape, and registry values that are neither a string nor null.

## Findings

The run itself (`Resolve`, `ResolveAccount`, `Run`) follows the code as
written; `StemAccount` is the corrected stem-to-account step, with the
intended round trip proved about it.

| source | as written | input that shows it | evidently intended | confidence | as-written member | corrected member |
|---|---|---|---|---|---|---|
| main.py:27 | `stem.replace("saved_", "")` removes every occurrence of `saved_`, not only the leading one | a single file `saved_a_saved_b.json` and no `--user`/`--url`: the account becomes `a_b`, so the run no longer finds its account's collection. With the registry written by that account's first run (`{"a_saved_b": url}`) it stops at `urls[user]` (main.py:40); with no `urls.json` it stores `{"a_b": null}` and fails, and every later run for `a_b` fails too. Only a registry that already maps `a_b` to a URL leads to `saved_a_b.json` being written | strip only the leading `saved_`, so that the run continues the collection it found | not executed; follows from Python's documented `str.replace` | Accounts.ResolveFallbackLosesAccount | Accounts.StemAccount |

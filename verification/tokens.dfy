/**
 * The identifier mapping behind the moderation buttons (bot.js:16, 22-30, 47).
 * A submitted media file id is hashed, `hash -> file id` is written into a
 * process-wide dictionary that is never evicted, and a button press is
 * resolved by plain lookup of the data it carries.
 */
module Tokens {
  import opened Wrappers

  predicate IsLowerHexDigit(c: char) {
    '0' <= c <= '9' || 'a' <= c <= 'f'
  }

  /** What `digest("hex")` of an MD5 hash yields: exactly 32 lower-case hex digits. */
  predicate IsHexDigest(s: string) {
    |s| == 32 && forall i :: 0 <= i < |s| ==> IsLowerHexDigit(s[i])
  }

  const ZeroDigest: string := seq(32, _ => '0')

  /**
   * MD5 in hex, left uninterpreted: some deterministic function whose every
   * result is a 32-digit lower-case hex string. Nothing else (in particular
   * no injectivity) is known about it.
   */
  type Md5Hex = f: string -> string | forall s :: IsHexDigest(f(s)) witness (s: string) => ZeroDigest

  /** The callback data of the "Reject" button (bot.js:169). */
  const RejectedData: string := "Rejected"

  /** hashData (bot.js:23-25). */
  function HashData(md5: Md5Hex, data: string): (token: string)
    ensures IsHexDigest(token)
  {
    md5(data)
  }

  /** The sentinel is not of the shape of any digest, so no hash ever equals it. */
  lemma SentinelIsNotDigest()
    ensures !IsHexDigest(RejectedData)
  {
  }

  /**
   * The lookup `callbackDataStore[data]` followed by the truthiness test
   * `if (originalFileId)` (bot.js:47, 51): a file id is found only when the
   * key is present and the stored id is not the empty string.
   */
  function Resolve(store: map<string, string>, data: string): (r: Option<string>)
    ensures r.Some? <==> data in store && store[data] != ""
    ensures r.Some? ==> r.value == store[data]
  {
    if data in store && store[data] != "" then Some(store[data]) else None
  }

  /** Every key of the dictionary is the hash of the file id stored under it. */
  ghost predicate Minted(md5: Md5Hex, store: map<string, string>) {
    forall t :: t in store ==> HashData(md5, store[t]) == t
  }

  /**
   * The dictionary after the file ids in `refs` were submitted in order,
   * each by `storeCallbackData(hashData(f), f)` (bot.js:142-144).
   */
  function MintAll(md5: Md5Hex, refs: seq<string>): map<string, string>
  {
    if refs == [] then map[]
    else
      var f := refs[|refs| - 1];
      MintAll(md5, refs[..|refs| - 1])[HashData(md5, f) := f]
  }

  /**
   * Every key of the dictionary is the hash of the file id it maps to, and
   * that file id was submitted: a key is only ever the digest of its value.
   */
  lemma {:induction false} MintAllSound(md5: Md5Hex, refs: seq<string>, t: string)
    requires t in MintAll(md5, refs)
    ensures HashData(md5, MintAll(md5, refs)[t]) == t
    ensures MintAll(md5, refs)[t] in refs
  {
    var f := refs[|refs| - 1];
    if t != HashData(md5, f) {
      MintAllSound(md5, refs[..|refs| - 1], t);
    }
  }

  /**
   * Entries are never evicted: the hash of every file id ever submitted stays
   * a key, and the keys are exactly those hashes.
   */
  lemma {:induction false} MintAllKeys(md5: Md5Hex, refs: seq<string>)
    ensures MintAll(md5, refs).Keys == set f | f in refs :: HashData(md5, f)
  {
    if refs != [] {
      var init := refs[..|refs| - 1];
      MintAllKeys(md5, init);
      assert refs == init + [refs[|refs| - 1]];
    }
  }

  /** The last file id submitted wins its hash: resolving the hash right after minting yields that id. */
  lemma ResolveJustMinted(md5: Md5Hex, refs: seq<string>, f: string)
    requires f != ""
    ensures Resolve(MintAll(md5, refs + [f]), HashData(md5, f)) == Some(f)
  {
    assert (refs + [f])[..|refs|] == refs;
  }

  /** A token never minted, and the Reject sentinel in particular, resolves to nothing. */
  lemma {:induction false} UnmintedNeverResolves(md5: Md5Hex, refs: seq<string>, t: string)
    requires forall f :: f in refs ==> HashData(md5, f) != t
    ensures Resolve(MintAll(md5, refs), t) == None
  {
    if t in MintAll(md5, refs) {
      MintAllSound(md5, refs, t);
    }
  }

  /** The history-built dictionary has only digest keys, each the hash of its value. */
  lemma MintAllMinted(md5: Md5Hex, refs: seq<string>)
    ensures Minted(md5, MintAll(md5, refs))
  {
    forall t | t in MintAll(md5, refs) ensures HashData(md5, MintAll(md5, refs)[t]) == t {
      MintAllSound(md5, refs, t);
    }
  }

  /** In a dictionary with only digest keys, neither the sentinel nor any non-digest resolves. */
  lemma NonDigestNeverResolves(md5: Md5Hex, store: map<string, string>, data: string)
    requires Minted(md5, store)
    requires !IsHexDigest(data)
    ensures Resolve(store, data) == None
  {
    assert data in store ==> HashData(md5, store[data]) == data;
  }

  /** The "Reject" button can never resolve to a file id, whatever was submitted. */
  lemma {:induction false} SentinelNeverResolves(md5: Md5Hex, refs: seq<string>)
    ensures Resolve(MintAll(md5, refs), RejectedData) == None
  {
    forall f | f in refs ensures HashData(md5, f) != RejectedData {
      SentinelIsNotDigest();
    }
    UnmintedNeverResolves(md5, refs, RejectedData);
  }
}

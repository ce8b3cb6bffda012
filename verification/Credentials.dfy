/** The write-only credential rules of the model catalog: what an administrator is
    shown (`Redact`), how a submitted document is resolved against the stored one
    (`Merge`), and what may never be stored (`ContainsSentinel`). */
module Credentials {
  import opened Common

  /** A JSON value. Objects are unordered, as Python compares them. Lists are never
      walked by the source, so a list is one more leaf that is compared as a whole. */
  datatype Json =
    | Null
    | Bool(b: bool)
    | Num(n: real)
    | Str(s: string)
    | List(elems: seq<Json>)
    | Obj(fields: Params)

  type Params = map<string, Json>

  /** Python's `params or {}`. */
  function Given(params: Option<Params>): Params {
    if params.Some? then params.value else map[]
  }

  const CREDENTIAL_SENTINEL := Str("********")
  const CRED_KEYWORDS: set<string> := {"key", "secret", "token", "password", "credential"}
  const ENVIRON_PREFIX := "os.environ/"

  predicate HasSubstring(s: string, part: string) {
    exists i :: 0 <= i <= |s| && part <= s[i..]
  }

  predicate IsCredentialKey(key: string) {
    exists kw :: kw in CRED_KEYWORDS && HasSubstring(Lower(key), kw)
  }

  /** What an administrator is shown in place of one entry that is not an object. */
  function RedactLeaf(key: string, v: Json): Json {
    if v.Str? && !(ENVIRON_PREFIX <= v.s) && IsCredentialKey(key) then CREDENTIAL_SENTINEL else v
  }

  function Redact(d: Params): Params
    decreases Obj(d)
  {
    map k | k in d :: if d[k].Obj? then Obj(Redact(d[k].fields)) else RedactLeaf(k, d[k])
  }

  /** The stored object under a key, or an empty one when there is none. */
  function SubObject(stored: Params, k: string): Params {
    if k in stored && stored[k].Obj? then stored[k].fields else map[]
  }

  /** A submitted document resolved against the stored one. */
  function Merge(submitted: Params, stored: Params): Params
    decreases Obj(submitted)
  {
    map k | k in submitted && (submitted[k] != CREDENTIAL_SENTINEL || k in stored) ::
      if submitted[k] == CREDENTIAL_SENTINEL then stored[k]
      else if submitted[k].Obj? then Obj(Merge(submitted[k].fields, SubObject(stored, k)))
      else submitted[k]
  }

  predicate ContainsSentinel(params: Params)
    decreases Obj(params)
  {
    exists k :: k in params &&
                (params[k] == CREDENTIAL_SENTINEL || (params[k].Obj? && ContainsSentinel(params[k].fields)))
  }

  /** Reached through objects alone, no literal credential is left: a string under a credential
      key is either the sentinel or a reference to an environment variable of the proxy. */
  ghost predicate NoLiteralSecret(d: Params)
    decreases Obj(d)
  {
    forall k :: k in d ==>
      (d[k].Obj? ==> NoLiteralSecret(d[k].fields)) &&
      (d[k].Str? && IsCredentialKey(k) ==> d[k] == CREDENTIAL_SENTINEL || ENVIRON_PREFIX <= d[k].s)
  }

  // ----- The loops of the source, proved against the functions above -----

  method RedactLitellmParams(d: Params) returns (out: Params)
    ensures out == Redact(d)
    decreases Obj(d)
  {
    out := map[];
    var todo := d.Keys;
    while todo != {}
      invariant todo <= d.Keys
      invariant out == map k | k in d && k !in todo :: Redact(d)[k]
      decreases todo
    {
      var k :| k in todo;
      if d[k].Obj? {
        var inner := RedactLitellmParams(d[k].fields);
        out := out[k := Obj(inner)];
      } else if d[k].Str? && ENVIRON_PREFIX <= d[k].s {
        out := out[k := d[k]];
      } else if d[k].Str? && IsCredentialKey(k) {
        out := out[k := CREDENTIAL_SENTINEL];
      } else {
        out := out[k := d[k]];
      }
      todo := todo - {k};
    }
  }

  method MergeCredentialSentinels(submitted: Params, storedParams: Option<Json>) returns (out: Params)
    ensures out == Merge(submitted, if storedParams.Some? && storedParams.value.Obj? then storedParams.value.fields
                                    else map[])
    decreases Obj(submitted)
  {
    var stored := if storedParams.Some? && storedParams.value.Obj? then storedParams.value.fields else map[];
    out := map[];
    var todo := submitted.Keys;
    while todo != {}
      invariant todo <= submitted.Keys
      invariant out == map k | k in Merge(submitted, stored) && k !in todo :: Merge(submitted, stored)[k]
      decreases todo
    {
      var k :| k in todo;
      if submitted[k] == CREDENTIAL_SENTINEL {
        if k in stored {
          out := out[k := stored[k]];
        }
      } else if submitted[k].Obj? {
        var inner := MergeCredentialSentinels(submitted[k].fields, Get(stored, k));
        out := out[k := Obj(inner)];
      } else {
        out := out[k := submitted[k]];
      }
      todo := todo - {k};
    }
  }

  method FindSentinel(params: Params) returns (found: bool)
    ensures found == ContainsSentinel(params)
    decreases Obj(params)
  {
    var todo := params.Keys;
    while todo != {}
      invariant todo <= params.Keys
      invariant forall k :: k in params && k !in todo ==>
        params[k] != CREDENTIAL_SENTINEL && !(params[k].Obj? && ContainsSentinel(params[k].fields))
      decreases todo
    {
      var k :| k in todo;
      if params[k] == CREDENTIAL_SENTINEL {
        return true;
      }
      if params[k].Obj? {
        var inner := FindSentinel(params[k].fields);
        if inner {
          return true;
        }
      }
      todo := todo - {k};
    }
    return false;
  }

  // ----- Redaction -----

  /** Redacting what is already redacted changes nothing. */
  lemma {:induction false} RedactIdempotent(d: Params)
    ensures Redact(Redact(d)) == Redact(d)
    decreases Obj(d)
  {
    forall k | k in d && d[k].Obj? {
      RedactIdempotent(d[k].fields);
    }
  }

  /** No string that is reached through objects, at any depth, is shown as a literal credential. */
  lemma {:induction false} RedactHidesSecrets(d: Params)
    ensures NoLiteralSecret(Redact(d))
    decreases Obj(d)
  {
    forall k | k in d && d[k].Obj? {
      RedactHidesSecrets(d[k].fields);
    }
  }

  /** The value that is reached by these keys, through objects alone. */
  function ValueAt(d: Params, path: seq<string>): Option<Json>
    requires path != []
    decreases |path|
  {
    if |path| == 1 then Get(d, path[0])
    else if path[0] in d && d[path[0]].Obj? then ValueAt(d[path[0]].fields, path[1..])
    else None
  }

  /** Exactly what is shown there: an object is redacted itself, anything else goes by the last key. */
  lemma {:induction false} RedactAt(d: Params, path: seq<string>)
    requires path != []
    ensures ValueAt(Redact(d), path) ==
      match ValueAt(d, path)
      case None => None
      case Some(v) => Some(if v.Obj? then Obj(Redact(v.fields)) else RedactLeaf(path[|path| - 1], v))
    decreases |path|
  {
    if |path| > 1 && path[0] in d && d[path[0]].Obj? {
      RedactAt(d[path[0]].fields, path[1..]);
    }
  }

  /** The words that give a credential away. */
  predicate IsKeyword(word: string) {
    word == "key" || word == "secret" || word == "token" || word == "password" || word == "credential"
  }

  /** One of the five words is part of the key, however it is spelled. */
  ghost predicate NamesCredential(key: string) {
    exists prefix, text, suffix, word ::
      key == prefix + text + suffix && Spells(text, word) && IsKeyword(word)
  }

  lemma {:induction false} SpelledPart(key: string, i: nat, word: string)
    requires i + |word| <= |key| && forall c :: c in word ==> 'a' <= c <= 'z'
    ensures word <= Lower(key)[i..] <==> Spells(key[i..i + |word|], word)
  {
    var part := key[i..i + |word|];
    assert word <= Lower(key)[i..] <==> forall j :: 0 <= j < |word| ==> Lower(key)[i..][j] == word[j];
    forall j | 0 <= j < |word|
      ensures Lower(key)[i..][j] == word[j] <==> part[j] == word[j] || part[j] as int + 32 == word[j] as int
    {
      assert word[j] in word && part[j] == key[i + j];
    }
  }

  lemma KeywordsAreLower(word: string)
    requires IsKeyword(word)
    ensures forall c :: c in word ==> 'a' <= c <= 'z'
  {
  }

  lemma SpelledIsNamed(key: string, prefix: string, text: string, suffix: string, word: string)
    requires key == prefix + text + suffix && Spells(text, word) && IsKeyword(word)
    ensures IsCredentialKey(key)
  {
    KeywordsAreLower(word);
    assert word in CRED_KEYWORDS;
    hide IsKeyword, Spells, Lower;
    assert |text| == |word| by {
      SameLength(text, word);
    }
    assert key[|prefix|..|prefix| + |word|] == text;
    SpelledPart(key, |prefix|, word);
    assert HasSubstring(Lower(key), word) by {
      LowerLength(key);
      assert 0 <= |prefix| <= |Lower(key)|;
    }
  }

  lemma SameLength(text: string, word: string)
    requires Spells(text, word)
    ensures |text| == |word|
  {
  }

  lemma LowerLength(key: string)
    ensures |Lower(key)| == |key|
  {
  }

  lemma NamedIsSpelled(key: string)
    requires IsCredentialKey(key)
    ensures NamesCredential(key)
  {
    var word :| word in CRED_KEYWORDS && HasSubstring(Lower(key), word);
    assert IsKeyword(word);
    KeywordsAreLower(word);
    LowerLength(key);
    hide IsKeyword, Spells, Lower;
    var i :| 0 <= i <= |Lower(key)| && word <= Lower(key)[i..];
    SpelledPart(key, i, word);
    ThreeParts(key, i, |word|);
    hide *;
    IsNamed(key, key[..i], key[i..i + |word|], key[i + |word|..], word);
  }

  lemma ThreeParts(key: string, i: nat, n: nat)
    requires i + n <= |key|
    ensures key == key[..i] + key[i..i + n] + key[i + n..]
  {
  }

  lemma IsNamed(key: string, prefix: string, text: string, suffix: string, word: string)
    requires key == prefix + text + suffix && Spells(text, word) && IsKeyword(word)
    ensures NamesCredential(key)
  {
    hide Spells, IsKeyword;
  }

  /** The source's test by substrings of the lowered key is exactly that. */
  lemma CredentialKeyIsNamed(key: string)
    ensures IsCredentialKey(key) <==> NamesCredential(key)
  {
    hide IsCredentialKey, Spells;
    if IsCredentialKey(key) {
      NamedIsSpelled(key);
    }
    if NamesCredential(key) {
      var prefix, text, suffix, word :| key == prefix + text + suffix && Spells(text, word) && IsKeyword(word);
      SpelledIsNamed(key, prefix, text, suffix, word);
    }
  }

  /** So a string is hidden exactly if the key it is stored under names a credential and it is no reference to an
      environment variable; anything else that is no object is shown as it is stored. */
  lemma RedactByName(d: Params, path: seq<string>)
    requires path != [] && ValueAt(d, path).Some? && !ValueAt(d, path).value.Obj?
    ensures ValueAt(Redact(d), path) ==
      match ValueAt(d, path).value
      case Str(s) => Some(Str(if NamesCredential(path[|path| - 1]) && !("os.environ/" <= s) then "********" else s))
      case other => Some(other)
  {
    RedactAt(d, path);
    CredentialKeyIsNamed(path[|path| - 1]);
    hide IsCredentialKey, NamesCredential, ValueAt, Redact;
  }

  /** Posting back what was shown keeps every stored value, at any depth. */
  lemma {:induction false} RedactRoundTrip(d: Params)
    ensures Merge(Redact(d), d) == d
    decreases Obj(d)
  {
    forall k | k in d && d[k].Obj? {
      RedactRoundTrip(d[k].fields);
    }
  }

  // ----- Sentinel algebra -----

  /** What the resolved document holds at every path of keys: a submitted value stands, a placeholder gives way to
      what is stored there, if anything, and nothing is added. */
  lemma {:induction false} MergeAt(submitted: Params, stored: Params, path: seq<string>)
    requires path != []
    ensures
      var merged := ValueAt(Merge(submitted, stored), path);
      match ValueAt(submitted, path)
      case Some(Obj(_)) => merged.Some? && merged.value.Obj?
      case Some(v) => merged == if v == Str("********") then ValueAt(stored, path) else Some(v)
      case None =>
        (forall i :: 0 < i < |path| ==> ValueAt(submitted, path[..i]) != Some(Str("********"))) ==> merged == None
    decreases |path|
  {
    if |path| > 1 && path[0] in submitted {
      var rest := path[1..];
      if submitted[path[0]].Obj? {
        var inner := submitted[path[0]].fields;
        MergeAt(inner, SubObject(stored, path[0]), rest);
        if forall i :: 0 < i < |path| ==> ValueAt(submitted, path[..i]) != Some(Str("********")) {
          forall i | 0 < i < |rest|
            ensures ValueAt(inner, rest[..i]) != Some(Str("********"))
          {
            assert path[..i + 1][1..] == rest[..i];
            assert ValueAt(submitted, path[..i + 1]) == ValueAt(inner, rest[..i]);
          }
        }
      } else {
        assert ValueAt(submitted, path[..1]) == Some(submitted[path[0]]);
      }
    }
  }

  /** Resolving twice is resolving once. */
  lemma {:induction false} MergeIdempotent(submitted: Params, stored: Params)
    ensures Merge(submitted, Merge(submitted, stored)) == Merge(submitted, stored)
    decreases Obj(submitted)
  {
    var once := Merge(submitted, stored);
    forall k | k in submitted && submitted[k].Obj? {
      MergeIdempotent(submitted[k].fields, SubObject(stored, k));
    }
  }

  /** A document is taken as it stands, whatever is stored, exactly when it holds no sentinel. */
  lemma {:induction false} MergeIsIdentityIffNoSentinel(submitted: Params)
    ensures (forall stored :: Merge(submitted, stored) == submitted) <==> !ContainsSentinel(submitted)
    decreases Obj(submitted)
  {
    if ContainsSentinel(submitted) {
      SentinelIsDropped(submitted);
    } else {
      forall stored
        ensures Merge(submitted, stored) == submitted
      {
        MergeWithoutSentinel(submitted, stored);
      }
    }
  }

  lemma {:induction false} MergeWithoutSentinel(submitted: Params, stored: Params)
    requires !ContainsSentinel(submitted)
    ensures Merge(submitted, stored) == submitted
    decreases Obj(submitted)
  {
    forall k | k in submitted
      ensures submitted[k] != CREDENTIAL_SENTINEL
      ensures submitted[k].Obj? ==> Merge(submitted[k].fields, SubObject(stored, k)) == submitted[k].fields
    {
      if submitted[k].Obj? {
        MergeWithoutSentinel(submitted[k].fields, SubObject(stored, k));
      }
    }
  }

  lemma {:induction false} SentinelIsDropped(submitted: Params)
    requires ContainsSentinel(submitted)
    ensures Merge(submitted, map[]) != submitted
    decreases Obj(submitted)
  {
    var k :| k in submitted &&
             (submitted[k] == CREDENTIAL_SENTINEL || (submitted[k].Obj? && ContainsSentinel(submitted[k].fields)));
    if submitted[k] == CREDENTIAL_SENTINEL {
      assert k !in Merge(submitted, map[]);
    } else {
      SentinelIsDropped(submitted[k].fields);
      assert Merge(submitted, map[])[k].fields != submitted[k].fields;
    }
  }

  /** A clean store stays clean: whatever is submitted, no sentinel is stored. */
  lemma {:induction false} MergeNeverStoresSentinel(submitted: Params, stored: Params)
    requires !ContainsSentinel(stored)
    ensures !ContainsSentinel(Merge(submitted, stored))
    decreases Obj(submitted)
  {
    var merged := Merge(submitted, stored);
    forall k | k in merged
      ensures merged[k] != CREDENTIAL_SENTINEL
      ensures merged[k].Obj? ==> !ContainsSentinel(merged[k].fields)
    {
      if submitted[k] != CREDENTIAL_SENTINEL && submitted[k].Obj? {
        MergeNeverStoresSentinel(submitted[k].fields, SubObject(stored, k));
      }
    }
  }

  // ----- Lists, which the source does not walk -----

  /** A literal credential somewhere in the value, lists included; a list's elements are under its key.
      Only strings count: numbers under keys such as `max_tokens` are no secrets. */
  predicate Exposes(key: string, v: Json)
    decreases v
  {
    match v
    case Str(s) => IsCredentialKey(key) && v != CREDENTIAL_SENTINEL && !(ENVIRON_PREFIX <= s)
    case List(elems) => exists i :: 0 <= i < |elems| && Exposes(key, elems[i])
    case Obj(fields) => exists k :: k in fields && Exposes(k, fields[k])
    case _ => false
  }

  /** A list that is reached through objects holds a literal credential. */
  predicate ListExposes(d: Params)
    decreases Obj(d)
  {
    exists k :: k in d && ((d[k].List? && Exposes(k, d[k])) || (d[k].Obj? && ListExposes(d[k].fields)))
  }

  /** What an administrator is shown is free of literal credentials exactly if no list holds one. */
  lemma {:induction false} ShownExposesExactly(key: string, d: Params)
    ensures Exposes(key, Obj(Redact(d))) <==> ListExposes(d)
    decreases Obj(d)
  {
    hide IsCredentialKey;
    var shown := Redact(d);
    forall k | k in d
      ensures Exposes(k, shown[k]) <==> (d[k].List? && Exposes(k, d[k])) || (d[k].Obj? && ListExposes(d[k].fields))
    {
      if d[k].Obj? {
        ShownExposesExactly(k, d[k].fields);
      }
    }
  }

  /** So this one is shown as it is stored. */
  lemma ListedSecretIsShown()
    ensures
      var d := map["api_key" := List([Str("sk-live")])];
      Redact(d) == d && Exposes("", Obj(d)) && NoLiteralSecret(d)
  {
    var secret := List([Str("sk-live")]);
    var d := map["api_key" := secret];
    assert Lower("api_key") == "api_key";
    assert "key" <= "api_key"[4..];
    assert IsCredentialKey("api_key");
    assert "sk-live"[0] != ENVIRON_PREFIX[0];
    assert Exposes("api_key", secret.elems[0]);
    assert Exposes("api_key", d["api_key"]);
  }

  /** The placeholder occurs somewhere in the value, lists included. */
  predicate DeepSentinel(v: Json)
    decreases v
  {
    match v
    case List(elems) => exists i :: 0 <= i < |elems| && DeepSentinel(elems[i])
    case Obj(fields) => exists k :: k in fields && DeepSentinel(fields[k])
    case _ => v == CREDENTIAL_SENTINEL
  }

  /** A list that is reached through objects holds the placeholder. */
  predicate ListSentinel(d: Params)
    decreases Obj(d)
  {
    exists k :: k in d && ((d[k].List? && DeepSentinel(d[k])) || (d[k].Obj? && ListSentinel(d[k].fields)))
  }

  /** Resolving over a clean stored document leaves a placeholder exactly if a submitted list holds one. */
  lemma {:induction false} MergeStoresExactly(submitted: Params, stored: Params)
    requires !DeepSentinel(Obj(stored))
    ensures DeepSentinel(Obj(Merge(submitted, stored))) <==> ListSentinel(submitted)
    decreases Obj(submitted)
  {
    var merged := Merge(submitted, stored);
    forall k | k in merged
      ensures DeepSentinel(merged[k]) <==>
        (submitted[k].List? && DeepSentinel(submitted[k])) || (submitted[k].Obj? && ListSentinel(submitted[k].fields))
    {
      if submitted[k] == CREDENTIAL_SENTINEL {
        assert !DeepSentinel(stored[k]);
      } else if submitted[k].Obj? {
        CleanPart(stored, k);
        MergeStoresExactly(submitted[k].fields, SubObject(stored, k));
      }
    }
    forall k | k in submitted && k !in merged
      ensures submitted[k] == CREDENTIAL_SENTINEL
    {
    }
  }

  lemma CleanPart(stored: Params, k: string)
    requires !DeepSentinel(Obj(stored))
    ensures !DeepSentinel(Obj(SubObject(stored, k)))
  {
    if k in stored && stored[k].Obj? {
      assert !DeepSentinel(stored[k]);
    }
  }

  /** So this one passes for clean and is stored. */
  lemma ListedSentinelIsStored(stored: Params)
    ensures
      var d := map["fallbacks" := List([Obj(map["api_key" := CREDENTIAL_SENTINEL])])];
      !ContainsSentinel(d) && Merge(d, stored) == d && DeepSentinel(Obj(d))
  {
    var entry := Obj(map["api_key" := CREDENTIAL_SENTINEL]);
    var listed := List([entry]);
    var d := map["fallbacks" := listed];
    assert DeepSentinel(entry.fields["api_key"]);
    assert DeepSentinel(listed.elems[0]);
    assert DeepSentinel(d["fallbacks"]);
    assert !ContainsSentinel(d);
    MergeWithoutSentinel(d, stored);
  }
}

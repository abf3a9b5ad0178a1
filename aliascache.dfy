/**
 * The alias cache (src/aliasCache.js): a table of named cluster settings,
 * kept in a module-level `cache` object and written to a JSON file. A user
 * name and password are stored as Base64 of "user:password" in UTF-8 and
 * turned back into `user` and `password` when an alias is read.
 *
 * The file is its parsed content: `None` when it is missing or does not
 * hold JSON, so that load keeps the cache as it was; save writes the cache.
 */
module AliasCache {
  import opened Wrappers
  import opened Strings
  import opened Json
  import opened Codec

  /** The error of a property read on undefined or null, or of Buffer.from on a number or boolean. */
  const TypeError: string := "TypeError"

  /** The module-level cache before anything is loaded: `{ aliases: {} }`. */
  const InitialCache: Json := JObj(map["aliases" := JObj(map[])])

  function Get(m: map<string, Json>, key: string): JsVal
  {
    if key in m then Some(m[key]) else None
  }

  /** `[user, password].join(':')`. */
  function Combined(user: Json, password: Json): string
  {
    ToStr(Some(user)) + ":" + ToStr(Some(password))
  }

  /** `Buffer.from(combined).toString('base64')`. */
  function Credentials(user: Json, password: Json): string
  {
    Base64Encode(Utf8Encode(Combined(user, password)))
  }

  predicate HasLogin(options: map<string, Json>)
  {
    Truthy(Get(options, "user")) && Truthy(Get(options, "password"))
  }

  /**
   * The settings addAlias stores: a copy of the options, where a truthy user
   * and password are replaced by their credentials.
   */
  function Stored(options: map<string, Json>): (r: map<string, Json>)
    ensures HasLogin(options) ==>
      r.Keys == options.Keys - {"user", "password"} + {"credentials"}
      && r["credentials"] == JStr(Credentials(options["user"], options["password"]))
      && forall k :: k in r && k != "credentials" ==> r[k] == options[k]
    ensures !HasLogin(options) ==> r == options
  {
    if HasLogin(options) then
      (options - {"user", "password"})["credentials" := JStr(Credentials(options["user"], options["password"]))]
    else options
  }

  /**
   * What getAlias does to an entry that is an object: truthy credentials are
   * decoded, split at ':' into user and password, and removed; a credentials
   * value that is not a string makes Buffer.from throw.
   */
  function Recovered(settings: map<string, Json>): Result<map<string, Json>>
  {
    var cred := Get(settings, "credentials");
    if !Truthy(cred) then Ok(settings)
    else if !cred.value.JStr? then Err(TypeError)
    else
      var parts := Split(Utf8Decode(Base64Decode(cred.value.s)), ':');
      var withUser := settings["user" := JStr(parts[0])];
      var withPassword := if |parts| >= 2 then withUser["password" := JStr(parts[1])] else withUser - {"password"};
      Ok(withPassword - {"credentials"})
  }

  // ------------------------------------------------------------ the cache

  /** `cache.aliases`: reading it from null throws, and so does indexing it when it is null or undefined. */
  function Aliases(cache: Json): Result<Json>
  {
    if cache.JNull? then Err(TypeError)
    else
      var aliases := Prop(Some(cache), "aliases");
      if IsNullish(aliases) then Err(TypeError) else Ok(aliases.value)
  }

  /** `cache.aliases[alias] = v` on a table that is an object. */
  function SetEntry(cache: Json, alias: string, v: Json): (r: Json)
    requires cache.JObj? && "aliases" in cache.m && cache.m["aliases"].JObj?
    ensures Aliases(r) == Ok(JObj(cache.m["aliases"].m[alias := v]))
  {
    JObj(cache.m["aliases" := JObj(cache.m["aliases"].m[alias := v])])
  }

  /** The largest array index, 2^32 - 2: a larger canonical number names an ordinary property. */
  const MaxArrayIndex: nat := 0xFFFF_FFFE

  /** The index an alias names when it is used as a key of an array. */
  function ArrayIndex(alias: string): (r: Option<nat>)
    ensures r.Some? ==> r.value <= MaxArrayIndex && NatToString(r.value) == alias
  {
    if ParseIndex(alias).Some? && ParseIndex(alias).value <= MaxArrayIndex then ParseIndex(alias) else None
  }

  /**
   * `a[i] = v` on an array: element i is set, and an array shorter than i
   * grows, its new holes written as null by JSON.stringify.
   */
  function Padded(s: seq<Json>, i: nat, v: Json): (r: seq<Json>)
    ensures |r| == if i < |s| then |s| else i + 1
    ensures r[i] == v
    ensures forall j :: 0 <= j < |r| && j != i ==> r[j] == if j < |s| then s[j] else JNull
  {
    if i < |s| then s[i := v] else s + seq(i - |s|, _ => JNull) + [v]
  }

  /** `cache.aliases[alias] = v` on a table that is an array, for an alias that is an index. */
  function SetIndex(cache: Json, i: nat, v: Json): (r: Json)
    requires cache.JObj? && "aliases" in cache.m && cache.m["aliases"].JArr?
    ensures Aliases(r) == Ok(JArr(Padded(cache.m["aliases"].a, i, v)))
  {
    JObj(cache.m["aliases" := JArr(Padded(cache.m["aliases"].a, i, v))])
  }

  const RangeError: string := "RangeError"

  /** The key whose assignment on an ordinary object sets its prototype unless the object has it as its own key. */
  const ProtoKey: string := "__proto__"

  /**
   * The cache after addAlias, as save writes it. Assigning a property of a
   * table that is a string, number or boolean does nothing in sloppy mode.
   * On an object table, `__proto__` sets the prototype, which JSON.stringify
   * does not write, unless the table has `__proto__` as its own key (as
   * JSON.parse makes it). An array table takes an index alias as an element;
   * `length` makes the assignment throw a RangeError (an object is not a
   * valid array length) before anything is saved, and any other alias
   * becomes a named property of the array, which JSON.stringify does not
   * write.
   */
  function AddEffect(cache: Json, alias: string, options: map<string, Json>): (r: Result<Json>)
    ensures r.Err? <==> Aliases(cache).Err? || (Aliases(cache).value.JArr? && alias == "length")
    ensures r.Err? && Aliases(cache).Ok? ==> r.error == RangeError
    ensures Aliases(cache).Ok? && Aliases(cache).value.JObj? && alias == ProtoKey && alias !in Aliases(cache).value.m ==>
      r == Ok(cache)
  {
    match Aliases(cache)
    case Err(e) => Err(e)
    case Ok(aliases) =>
      match aliases
      case JObj(t) =>
        if alias == ProtoKey && alias !in t then Ok(cache)
        else Ok(SetEntry(cache, alias, JObj(Stored(options))))
      case JArr(_) =>
        if alias == "length" then Err(RangeError)
        else if ArrayIndex(alias).Some? then Ok(SetIndex(cache, ArrayIndex(alias).value, JObj(Stored(options))))
        else Ok(cache)
      case _ => Ok(cache)
  }

  /**
   * The mutation of the entry getAlias read, which is shared with the
   * table: an object table has it under its key, an array table at its index.
   */
  function Replaced(cache: Json, alias: string, v: Json): Json
  {
    if cache.JObj? && "aliases" in cache.m then
      match cache.m["aliases"]
      case JObj(t) => SetEntry(cache, alias, v)
      case JArr(s) =>
        if ParseIndex(alias).Some? && ParseIndex(alias).value < |s| then SetIndex(cache, ParseIndex(alias).value, v)
        else cache
      case _ => cache
    else cache
  }

  /** The settings getAlias returns and the cache it leaves. */
  datatype Lookup = Lookup(settings: Json, cache: Json)

  function GetEffect(cache: Json, alias: string): Result<Lookup>
  {
    match Aliases(cache)
    case Err(e) => Err(e)
    case Ok(aliases) =>
      var settings := Prop(Some(aliases), alias);
      if IsNullish(settings) then Err(TypeError)
      else if !settings.value.JObj? || !Truthy(Prop(settings, "credentials")) then Ok(Lookup(settings.value, cache))
      else
        match Recovered(settings.value.m)
        case Err(e) => Err(e)
        case Ok(m) => Ok(Lookup(JObj(m), Replaced(cache, alias, JObj(m))))
  }

  /** `Object.keys(cache.aliases)`, as a set; a string or an array has its indexes as keys. */
  function KeysOf(cache: Json): Result<set<string>>
  {
    match Aliases(cache)
    case Err(e) => Err(e)
    case Ok(aliases) =>
      match aliases
      case JObj(m) => Ok(m.Keys)
      case JArr(s) => Ok(set i | 0 <= i < |s| :: NatToString(i))
      case JStr(s) => Ok(set i | 0 <= i < |s| :: NatToString(i))
      case _ => Ok({})
  }

  /** load: the file's content replaces the cache, and a missing or unreadable file keeps it. */
  function Loaded(cache: Json, file: Option<Json>): Json
  {
    if file.Some? then file.value else cache
  }

  /** The cache object the module's functions share, and the file it is saved to. */
  class Cache {
    var cache: Json
    var file: Option<Json>
    const cacheFile: string

    /** The factory: a file that exists is loaded into the module-level cache. */
    constructor (filePath: string, moduleCache: Json, file0: Option<Json>)
      ensures cacheFile == filePath && file == file0
      ensures cache == Loaded(moduleCache, file0)
    {
      cacheFile := filePath;
      file := file0;
      cache := moduleCache;
      new;
      Load();
    }

    method Load()
      modifies this
      ensures cache == Loaded(old(cache), old(file)) && file == old(file)
    {
      if file.Some? {
        cache := file.value;
      }
    }

    method Save()
      modifies this
      ensures file == Some(cache) && cache == old(cache)
    {
      file := Some(cache);
    }

    method AddAlias(alias: string, options: map<string, Json>) returns (r: Result<()>)
      modifies this
      ensures r.Err? <==> AddEffect(old(cache), alias, options).Err?
      ensures r.Err? ==> cache == old(cache) && file == old(file)
      ensures r.Ok? ==> cache == AddEffect(old(cache), alias, options).value && file == Some(cache)
    {
      var settings := options;
      if Truthy(Get(settings, "user")) && Truthy(Get(settings, "password")) {
        var combined := Combined(settings["user"], settings["password"]);
        settings := settings["credentials" := JStr(Base64Encode(Utf8Encode(combined)))];
        settings := settings - {"user"};
        settings := settings - {"password"};
      }
      assert settings == Stored(options);
      var aliases := Aliases(cache);
      if aliases.Err? {
        return Err(aliases.error);
      }
      if aliases.value.JArr? && alias == "length" {
        return Err(RangeError);
      }
      if aliases.value.JObj? && (alias != ProtoKey || alias in aliases.value.m) {
        cache := SetEntry(cache, alias, JObj(settings));
      } else if aliases.value.JArr? && ArrayIndex(alias).Some? {
        cache := SetIndex(cache, ArrayIndex(alias).value, JObj(settings));
      }
      assert cache == AddEffect(old(cache), alias, options).value;
      Save();
      r := Ok(());
    }

    method GetAlias(alias: string) returns (r: Result<Json>)
      modifies this
      ensures var g := GetEffect(Loaded(old(cache), old(file)), alias);
        (r.Ok? <==> g.Ok?) && (g.Err? ==> r == Err(g.error) && cache == Loaded(old(cache), old(file)))
        && (g.Ok? ==> r == Ok(g.value.settings) && cache == g.value.cache)
      ensures file == old(file)
    {
      Load();
      var g := GetEffect(cache, alias);
      if g.Err? {
        return Err(g.error);
      }
      cache := g.value.cache;
      r := Ok(g.value.settings);
    }

    method ListAliases() returns (r: Result<set<string>>)
      modifies this
      ensures r == KeysOf(Loaded(old(cache), old(file)))
      ensures cache == Loaded(old(cache), old(file)) && file == old(file)
    {
      Load();
      r := KeysOf(cache);
    }
  }

  // ------------------------------------------------------------------ lemmas

  /** The credentials decode back to the text "user:password". */
  lemma CredentialsDecode(user: Json, password: Json)
    ensures Utf8Decode(Base64Decode(Credentials(user, password))) == Combined(user, password)
  {
    Base64RoundTrip(Utf8Encode(Combined(user, password)));
    Utf8RoundTrip(Combined(user, password));
  }

  lemma CombinedStrings(user: string, password: string)
    ensures Combined(JStr(user), JStr(password)) == user + [':'] + password
  {
  }

  /** The credentials of two strings without ':' split back into them. */
  lemma LoginSplits(user: string, password: string)
    requires ':' !in user && ':' !in password
    ensures Split(Utf8Decode(Base64Decode(Credentials(JStr(user), JStr(password)))), ':') == [user, password]
  {
    CredentialsDecode(JStr(user), JStr(password));
    CombinedStrings(user, password);
    SplitNoSep(password, ':');
    SplitPrefix(user, password, ':');
  }

  /**
   * Reading back what addAlias stored gives the options again when the user
   * and password are strings without ':' and the options had no credentials
   * of their own.
   */
  lemma CredentialsRoundTrip(options: map<string, Json>, user: string, password: string)
    requires Get(options, "user") == Str(user) && Get(options, "password") == Str(password)
    requires user != "" && password != "" && ':' !in user && ':' !in password
    requires "credentials" !in options
    ensures Recovered(Stored(options)) == Ok(options)
  {
    var text := Credentials(JStr(user), JStr(password));
    StoredLogin(options, user, password);
    LoginSplits(user, password);
    EmptyCredentials();
    RecoveredLogin(Stored(options), text, [user, password]);
    LoginReplaced(options, text, user, password);
  }

  lemma StoredLogin(options: map<string, Json>, user: string, password: string)
    requires Get(options, "user") == Str(user) && Get(options, "password") == Str(password)
    requires user != "" && password != ""
    ensures Stored(options) == (options - {"user", "password"})["credentials" := JStr(Credentials(JStr(user), JStr(password)))]
  {
  }

  /** Putting user and password back in place of the credentials restores options that had none. */
  lemma LoginReplaced(options: map<string, Json>, text: string, user: string, password: string)
    requires Get(options, "user") == Str(user) && Get(options, "password") == Str(password)
    requires "credentials" !in options
    ensures ((options - {"user", "password"})["credentials" := JStr(text)])["user" := JStr(user)]["password" := JStr(password)]
      - {"credentials"} == options
  {
    var back := ((options - {"user", "password"})["credentials" := JStr(text)])["user" := JStr(user)]["password" := JStr(password)]
      - {"credentials"};
    assert back.Keys == options.Keys;
  }

  /** Credentials that decode to at least two ':'-separated parts give back the first two as user and password. */
  lemma RecoveredLogin(settings: map<string, Json>, cred: string, parts: seq<string>)
    requires Get(settings, "credentials") == Str(cred) && cred != ""
    requires Split(Utf8Decode(Base64Decode(cred)), ':') == parts && |parts| >= 2
    ensures Recovered(settings) == Ok(settings["user" := JStr(parts[0])]["password" := JStr(parts[1])] - {"credentials"})
  {
  }

  lemma EmptyCredentials()
    ensures |Split(Utf8Decode(Base64Decode("")), ':')| == 1
  {
    SplitNoSep(Utf8Decode(Base64Decode("")), ':');
  }

  /** Behaviour as coded: a password containing ':' comes back cut at its first ':'. */
  lemma PasswordWithColonIsCut(options: map<string, Json>, user: string, head: string, tail: string)
    requires Get(options, "user") == Str(user) && Get(options, "password") == Str(head + ":" + tail)
    requires user != "" && ':' !in user && ':' !in head
    ensures Recovered(Stored(options)).Ok?
    ensures Get(Recovered(Stored(options)).value, "password") == Str(head)
    ensures Get(Recovered(Stored(options)).value, "user") == Str(user)
  {
    var password := head + ":" + tail;
    var text := Credentials(JStr(user), JStr(password));
    StoredLogin(options, user, password);
    ColonSplits(user, head, tail);
    EmptyCredentials();
    var parts := Split(Utf8Decode(Base64Decode(text)), ':');
    RecoveredLogin(Stored(options), text, parts);
  }

  lemma ColonSplits(user: string, head: string, tail: string)
    requires ':' !in user && ':' !in head
    ensures var parts := Split(Utf8Decode(Base64Decode(Credentials(JStr(user), JStr(head + ":" + tail)))), ':');
      |parts| >= 2 && parts[0] == user && parts[1] == head
  {
    CredentialsDecode(JStr(user), JStr(head + ":" + tail));
    CombinedStrings(user, head + ":" + tail);
    assert user + [':'] + (head + ":" + tail) == user + [':'] + (head + [':'] + tail);
    SplitPrefix(head, tail, ':');
    SplitPrefix(user, head + [':'] + tail, ':');
  }

  /** Settings without credentials are read back exactly as stored. */
  lemma PlainSettingsUnchanged(settings: map<string, Json>)
    requires !Truthy(Get(settings, "credentials"))
    ensures Recovered(settings) == Ok(settings)
  {
  }

  /**
   * addAlias followed by getAlias, with the file saved in between: the
   * alias reads back as the given options under the conditions of
   * CredentialsRoundTrip, or when they carry no login and no credentials.
   */
  lemma AddThenGet(cache: Json, alias: string, options: map<string, Json>, user: string, password: string)
    requires Aliases(cache).Ok? && Aliases(cache).value.JObj?
    requires alias != ProtoKey || alias in Aliases(cache).value.m
    requires "credentials" !in options
    requires HasLogin(options) ==>
      Get(options, "user") == Str(user) && Get(options, "password") == Str(password)
      && ':' !in user && ':' !in password
    ensures AddEffect(cache, alias, options).Ok?
    ensures var saved := AddEffect(cache, alias, options).value;
      GetEffect(Loaded(cache, Some(saved)), alias).Ok?
      && GetEffect(Loaded(cache, Some(saved)), alias).value.settings == JObj(options)
  {
    var saved := AddEffect(cache, alias, options).value;
    assert Aliases(saved) == Ok(JObj(Aliases(cache).value.m[alias := JObj(Stored(options))]));
    PropOfObject(Aliases(cache).value.m[alias := JObj(Stored(options))], alias);
    StoredReadsBack(saved, alias, options, user, password);
  }

  /** The same for a table that is an array and an alias that is an index: the element set is read back. */
  lemma AddToArrayThenGet(cache: Json, alias: string, options: map<string, Json>, user: string, password: string)
    requires Aliases(cache).Ok? && Aliases(cache).value.JArr? && ArrayIndex(alias).Some?
    requires "credentials" !in options
    requires HasLogin(options) ==>
      Get(options, "user") == Str(user) && Get(options, "password") == Str(password)
      && ':' !in user && ':' !in password
    ensures AddEffect(cache, alias, options).Ok?
    ensures var saved := AddEffect(cache, alias, options).value;
      GetEffect(Loaded(cache, Some(saved)), alias).Ok?
      && GetEffect(Loaded(cache, Some(saved)), alias).value.settings == JObj(options)
  {
    var i := ArrayIndex(alias).value;
    var padded := Padded(Aliases(cache).value.a, i, JObj(Stored(options)));
    var saved := AddEffect(cache, alias, options).value;
    assert Aliases(saved) == Ok(JArr(padded));
    IndexReads(padded, alias, i);
    StoredReadsBack(saved, alias, options, user, password);
  }

  /** An alias that is an index in range reads that element of an array. */
  lemma IndexReads(s: seq<Json>, alias: string, i: nat)
    requires ParseIndex(alias) == Some(i) && i < |s|
    ensures Prop(Some(JArr(s)), alias) == Some(s[i])
  {
    assert IsDigit(alias[0]) && !IsDigit("length"[0]);
  }

  /** A table holding the stored settings under an alias gives back the options they came from. */
  lemma StoredReadsBack(saved: Json, alias: string, options: map<string, Json>, user: string, password: string)
    requires Aliases(saved).Ok? && Prop(Some(Aliases(saved).value), alias) == Some(JObj(Stored(options)))
    requires "credentials" !in options
    requires HasLogin(options) ==>
      Get(options, "user") == Str(user) && Get(options, "password") == Str(password)
      && ':' !in user && ':' !in password
    ensures GetEffect(saved, alias).Ok? && GetEffect(saved, alias).value.settings == JObj(options)
  {
    if HasLogin(options) {
      CredentialsRoundTrip(options, user, password);
    }
  }

  /** After addAlias the listed aliases are the earlier ones and the new one. */
  lemma AddThenList(cache: Json, alias: string, options: map<string, Json>)
    requires Aliases(cache).Ok? && Aliases(cache).value.JObj?
    requires alias != ProtoKey || alias in Aliases(cache).value.m
    ensures KeysOf(AddEffect(cache, alias, options).value) == Ok(KeysOf(cache).value + {alias})
  {
    var t := Aliases(cache).value.m;
    var after := AddEffect(cache, alias, options).value;
    assert after == SetEntry(cache, alias, JObj(Stored(options)));
    assert Aliases(after) == Ok(JObj(t[alias := JObj(Stored(options))]));
    assert KeysOf(after) == Ok(t[alias := JObj(Stored(options))].Keys);
    assert KeysOf(cache) == Ok(t.Keys);
    assert t[alias := JObj(Stored(options))].Keys == t.Keys + {alias};
  }

  /**
   * getAlias changes only the cache, never the file: once a file exists,
   * the next read loads it again and returns the same settings.
   */
  lemma GetIsRepeatable(cache: Json, saved: Json, alias: string)
    requires GetEffect(Loaded(cache, Some(saved)), alias).Ok?
    ensures var after := GetEffect(Loaded(cache, Some(saved)), alias).value.cache;
      GetEffect(Loaded(after, Some(saved)), alias) == GetEffect(Loaded(cache, Some(saved)), alias)
  {
  }

  /** An alias that is not in the table makes getAlias throw. */
  lemma UnknownAliasThrows(cache: Json, alias: string)
    requires Aliases(cache).Ok? && Aliases(cache).value.JObj? && alias !in Aliases(cache).value.m
    ensures GetEffect(cache, alias) == Err(TypeError)
  {
  }

  /**
   * An alias `__proto__` that the object table does not have as its own key
   * is lost from the file: addAlias succeeds, but the table it saves is the
   * table it had. Reading the alias back finds no own key; the model then
   * throws, where the source reads the table's prototype (own keys only,
   * as `Json.Prop` reads them).
   */
  lemma ProtoAliasLost(cache: Json, options: map<string, Json>)
    requires Aliases(cache).Ok? && Aliases(cache).value.JObj? && ProtoKey !in Aliases(cache).value.m
    ensures AddEffect(cache, ProtoKey, options).Ok?
    ensures AddEffect(cache, ProtoKey, options).value == cache
    ensures var saved := AddEffect(cache, ProtoKey, options).value;
      GetEffect(Loaded(cache, Some(saved)), ProtoKey) == Err(TypeError)
  {
    UnknownAliasThrows(cache, ProtoKey);
  }
}

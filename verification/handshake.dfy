/** The startup handshake: the one payload a worker accepts before it runs
    anything, and the validation that decides whether `main` starts. */
module Handshake {
  import opened Values

  datatype Mode = Release | Debug | Test
  datatype Host = Vim | Nvim
  datatype Platform = Windows | Mac | Linux

  /** Environment metadata, once validated. */
  datatype Meta = Meta(mode: Mode, host: Host, version: string, platform: Platform)

  /** The arguments `main` is started with. */
  datatype Init = Init(name: string, scriptUrl: string, meta: Meta)

  /** Why a startup payload was refused; the first failing check wins. */
  datatype ValidationError =
    | NotAnObject
    | NameNotString
    | ScriptUrlNotString
    | InvalidMeta(meta: Value)

  const ModeNames: seq<string> := ["release", "debug", "test"]
  const HostNames: seq<string> := ["vim", "nvim"]
  const PlatformNames: seq<string> := ["windows", "mac", "linux"]

  /** `isString(v) && names.includes(v)` */
  predicate IsOneOf(v: Value, names: seq<string>)
  {
    v.Str? && v.s in names
  }

  /** The guard chain of `isMeta`, one early `return false` per guard. */
  predicate IsMeta(v: Value)
  {
    if !v.Object? then false
    else if !IsOneOf(Get(v, "mode"), ModeNames) then false
    else if !IsOneOf(Get(v, "host"), HostNames) then false
    else if !Get(v, "version").Str? then false
    else if !IsOneOf(Get(v, "platform"), PlatformNames) then false
    else true
  }

  function ModeName(m: Mode): (s: string)
    ensures s in ModeNames
  {
    match m
    case Release => "release"
    case Debug => "debug"
    case Test => "test"
  }

  function HostName(h: Host): (s: string)
    ensures s in HostNames
  {
    match h
    case Vim => "vim"
    case Nvim => "nvim"
  }

  function PlatformName(p: Platform): (s: string)
    ensures s in PlatformNames
  {
    match p
    case Windows => "windows"
    case Mac => "mac"
    case Linux => "linux"
  }

  /** Reads a mode name; exactly the three accepted names parse. */
  function ParseMode(s: string): (r: Option<Mode>)
    ensures r.Some? <==> s in ModeNames
    ensures r.Some? ==> ModeName(r.value) == s
  {
    if s == "release" then Some(Release)
    else if s == "debug" then Some(Debug)
    else if s == "test" then Some(Test)
    else None
  }

  /** Reads a host name; exactly "vim" and "nvim" parse. */
  function ParseHost(s: string): (r: Option<Host>)
    ensures r.Some? <==> s in HostNames
    ensures r.Some? ==> HostName(r.value) == s
  {
    if s == "vim" then Some(Vim)
    else if s == "nvim" then Some(Nvim)
    else None
  }

  /** Reads a platform name; exactly the three accepted names parse. */
  function ParsePlatform(s: string): (r: Option<Platform>)
    ensures r.Some? <==> s in PlatformNames
    ensures r.Some? ==> PlatformName(r.value) == s
  {
    if s == "windows" then Some(Windows)
    else if s == "mac" then Some(Mac)
    else if s == "linux" then Some(Linux)
    else None
  }

  function ParseField<T>(v: Value, parse: string -> Option<T>): Option<T>
  {
    if v.Str? then parse(v.s) else None
  }

  /** Typed decode of the metadata object. It succeeds exactly when the
      `isMeta` guard chain accepts, and the typed fields are the ones read. */
  function DecodeMeta(v: Value): (r: Option<Meta>)
    ensures r.Some? <==> IsMeta(v)
    ensures r.Some? ==>
      && Get(v, "mode") == Str(ModeName(r.value.mode))
      && Get(v, "host") == Str(HostName(r.value.host))
      && Get(v, "version") == Str(r.value.version)
      && Get(v, "platform") == Str(PlatformName(r.value.platform))
  {
    var mode := ParseField(Get(v, "mode"), ParseMode);
    var host := ParseField(Get(v, "host"), ParseHost);
    var platform := ParseField(Get(v, "platform"), ParsePlatform);
    if v.Object? && mode.Some? && host.Some? && Get(v, "version").Str? && platform.Some?
    then Some(Meta(mode.value, host.value, Get(v, "version").s, platform.value))
    else None
  }

  /** The payload the message listener validates, decoded: an object with
      string `name` and `scriptUrl` and a `meta` that passes `isMeta`. */
  function DecodeInit(data: Value): (r: Result<Init, ValidationError>)
    ensures r.Ok? <==>
      && data.Object?
      && Get(data, "name").Str?
      && Get(data, "scriptUrl").Str?
      && IsMeta(Get(data, "meta"))
    ensures r.Ok? ==>
      && Get(data, "name") == Str(r.value.name)
      && Get(data, "scriptUrl") == Str(r.value.scriptUrl)
      && DecodeMeta(Get(data, "meta")) == Some(r.value.meta)
    ensures r == Err(NotAnObject) <==> !data.Object?
    ensures r.Err? && r.error.InvalidMeta? ==> !IsMeta(r.error.meta)
  {
    if !data.Object? then Err(NotAnObject)
    else if !Get(data, "name").Str? then Err(NameNotString)
    else if !Get(data, "scriptUrl").Str? then Err(ScriptUrlNotString)
    else
      match DecodeMeta(Get(data, "meta"))
      case None => Err(InvalidMeta(Get(data, "meta")))
      case Some(meta) => Ok(Init(Get(data, "name").s, Get(data, "scriptUrl").s, meta))
  }

  function EncodeMeta(m: Meta): Value
  {
    Object(map[
      "mode" := Str(ModeName(m.mode)),
      "host" := Str(HostName(m.host)),
      "version" := Str(m.version),
      "platform" := Str(PlatformName(m.platform))])
  }

  /** The payload a host sends for `init`. */
  function EncodeInit(init: Init): Value
  {
    Object(map[
      "name" := Str(init.name),
      "scriptUrl" := Str(init.scriptUrl),
      "meta" := EncodeMeta(init.meta)])
  }

  /** Every well-formed metadata value is accepted and read back unchanged. */
  lemma DecodeEncodeMeta(m: Meta)
    ensures IsMeta(EncodeMeta(m))
    ensures DecodeMeta(EncodeMeta(m)) == Some(m)
  {
    var v := EncodeMeta(m);
    assert Get(v, "mode") == Str(ModeName(m.mode));
    assert Get(v, "host") == Str(HostName(m.host));
    assert Get(v, "version") == Str(m.version);
    assert Get(v, "platform") == Str(PlatformName(m.platform));
  }

  /** Every well-formed startup payload is accepted with its own fields. */
  lemma DecodeEncodeInit(init: Init)
    ensures DecodeInit(EncodeInit(init)) == Ok(init)
  {
    var v := EncodeInit(init);
    assert Get(v, "name") == Str(init.name);
    assert Get(v, "scriptUrl") == Str(init.scriptUrl);
    assert Get(v, "meta") == EncodeMeta(init.meta);
    DecodeEncodeMeta(init.meta);
  }

  /** Decoding loses nothing `isMeta` checks: re-encoding an accepted value
      gives back each of its four checked fields. */
  lemma EncodeDecodeMeta(v: Value)
    requires IsMeta(v)
    ensures DecodeMeta(v).Some?
    ensures forall k :: k in ["mode", "host", "version", "platform"] ==>
      Get(EncodeMeta(DecodeMeta(v).value), k) == Get(v, k)
  {
    var m := DecodeMeta(v).value;
    var e := EncodeMeta(m);
    assert Get(e, "mode") == Str(ModeName(m.mode));
    assert Get(e, "host") == Str(HostName(m.host));
    assert Get(e, "version") == Str(m.version);
    assert Get(e, "platform") == Str(PlatformName(m.platform));
  }
}

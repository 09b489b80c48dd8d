/** ShizukuService.UserServiceOptionsBuilder: a mutable record of optional
    settings with fluent setters, and build(), which checks the required
    settings and fills a new Bundle one put at a time. */
module UserServiceOptions {
  import opened Results
  import opened Bundles
  import opened ApiConstants

  /** The builder's fields as one value; None stands for a null reference. */
  datatype Settings = Settings(
    id: Option<string>,
    className: Option<string>,
    versionCode: Option<Int32>,
    alwaysRecreate: Option<bool>,
    useMainProcess: bool,
    processNameSuffix: Option<string>,
    debuggable: bool)

  /** TextUtils.isEmpty: null or the empty string. */
  predicate IsEmpty(text: Option<string>)
  {
    text.None? || text.value == ""
  }

  /** What build() produces from the settings s: the entries of the new
      bundle, or the exception it throws. */
  function Options(s: Settings): (r: Result<map<string, Value>>)
    // It fails exactly when a required value is null, and the suffix is
    // checked first, then the id, then the class name.
    ensures r.Success? <==> (s.useMainProcess || s.processNameSuffix.Some?) && s.id.Some? && s.className.Some?
    ensures !s.useMainProcess && s.processNameSuffix.None? ==> r == Failure(NullPointer(SuffixNullMessage))
    ensures (s.useMainProcess || s.processNameSuffix.Some?) && s.id.None? ==>
              r == Failure(NullPointer(IdNullMessage))
    ensures (s.useMainProcess || s.processNameSuffix.Some?) && s.id.Some? && s.className.None? ==>
              r == Failure(NullPointer(ClassNameNullMessage))
    // On success: the id, the class name and the debuggable flag are always there,
    ensures r.Success? ==>
              && ArgId in r.value && r.value[ArgId] == Str(s.id.value)
              && ArgClassName in r.value && r.value[ArgClassName] == Str(s.className.value)
              && ArgDebuggable in r.value && r.value[ArgDebuggable] == Bool(s.debuggable)
    // the version code and the recreate flag only when they were set,
    ensures r.Success? ==>
              && (ArgVersionCode in r.value <==> s.versionCode.Some?)
              && (s.versionCode.Some? ==> r.value[ArgVersionCode] == Int(s.versionCode.value))
              && (ArgAlwaysRecreate in r.value <==> s.alwaysRecreate.Some?)
              && (s.alwaysRecreate.Some? ==> r.value[ArgAlwaysRecreate] == Bool(s.alwaysRecreate.value))
    // the process name only for a standalone process with a non-empty suffix,
    ensures r.Success? ==>
              && (ArgProcessName in r.value <==> !s.useMainProcess && s.processNameSuffix != Some(""))
              && (ArgProcessName in r.value ==> r.value[ArgProcessName] == Str(s.processNameSuffix.value))
    // and nothing else (in particular not the package name).
    ensures r.Success? ==> r.value.Keys <= UserServiceArgKeys - {ArgPackageName}
  {
    if !s.useMainProcess && s.processNameSuffix.None? then Failure(NullPointer(SuffixNullMessage))
    else if s.id.None? then Failure(NullPointer(IdNullMessage))
    else if s.className.None? then Failure(NullPointer(ClassNameNullMessage))
    else
      var required := map[ArgId := Str(s.id.value), ArgClassName := Str(s.className.value),
                           ArgDebuggable := Bool(s.debuggable)];
      var withVersion :=
        if s.versionCode.Some? then required[ArgVersionCode := Int(s.versionCode.value)] else required;
      var withRecreate :=
        if s.alwaysRecreate.Some? then withVersion[ArgAlwaysRecreate := Bool(s.alwaysRecreate.value)]
        else withVersion;
      Success(
        if !s.useMainProcess && !IsEmpty(s.processNameSuffix)
        then withRecreate[ArgProcessName := Str(s.processNameSuffix.value)]
        else withRecreate)
  }

  class UserServiceOptionsBuilder {
    const id: Option<string>
    var className: Option<string>
    var versionCode: Option<Int32>
    var alwaysRecreate: Option<bool>
    var useMainProcess: bool
    var processNameSuffix: Option<string>
    var debuggable: bool

    function Fields(): Settings
      reads this
    {
      Settings(id, className, versionCode, alwaysRecreate, useMainProcess, processNameSuffix, debuggable)
    }

    /** Only the id is given; the rest is null, or false for the two flags. */
    constructor (id: Option<string>)
      ensures Fields() == Settings(id, None, None, None, false, None, false)
    {
      this.id := id;
      className := None;
      versionCode := None;
      alwaysRecreate := None;
      useMainProcess := false;
      processNameSuffix := None;
      debuggable := false;
    }

    method SetClassName(className: Option<string>) returns (self: UserServiceOptionsBuilder)
      modifies this
      ensures self == this
      ensures Fields() == old(Fields()).(className := className)
    {
      this.className := className;
      self := this;
    }

    method SetVersionCode(versionCode: Int32) returns (self: UserServiceOptionsBuilder)
      modifies this
      ensures self == this
      ensures Fields() == old(Fields()).(versionCode := Some(versionCode))
    {
      this.versionCode := Some(versionCode);
      self := this;
    }

    method SetAlwaysRecreate(alwaysRecreate: bool) returns (self: UserServiceOptionsBuilder)
      modifies this
      ensures self == this
      ensures Fields() == old(Fields()).(alwaysRecreate := Some(alwaysRecreate))
    {
      this.alwaysRecreate := Some(alwaysRecreate);
      self := this;
    }

    /** Selects the main process; the suffix and the debuggable flag keep
        whatever an earlier useStandaloneProcess stored. */
    method UseMainProcess() returns (self: UserServiceOptionsBuilder)
      modifies this
      ensures self == this
      ensures Fields() == old(Fields()).(useMainProcess := true)
    {
      useMainProcess := true;
      self := this;
    }

    /** Selects a standalone process; the last placement call wins. */
    method UseStandaloneProcess(processNameSuffix: Option<string>, debuggable: bool)
      returns (self: UserServiceOptionsBuilder)
      modifies this
      ensures self == this
      ensures Fields() == old(Fields()).(useMainProcess := false, debuggable := debuggable,
                                         processNameSuffix := processNameSuffix)
    {
      useMainProcess := false;
      this.debuggable := debuggable;
      this.processNameSuffix := processNameSuffix;
      self := this;
    }

    /** build: a new bundle holding Options(Fields()), or the exception. */
    method Build() returns (r: Result<Bundle>)
      ensures r.Success? <==> Options(Fields()).Success?
      ensures r.Failure? ==> r.error == Options(Fields()).error
      ensures r.Success? ==> fresh(r.value) && r.value.entries == Options(Fields()).value
    {
      if !useMainProcess && processNameSuffix.None? {
        return Failure(NullPointer(SuffixNullMessage));
      }
      var options := new Bundle();
      if id.None? {
        return Failure(NullPointer(IdNullMessage));
      }
      options.PutString(ArgId, id.value);
      if className.None? {
        return Failure(NullPointer(ClassNameNullMessage));
      }
      options.PutString(ArgClassName, className.value);
      options.PutBoolean(ArgDebuggable, debuggable);
      if versionCode.Some? {
        options.PutInt(ArgVersionCode, versionCode.value);
      }
      if alwaysRecreate.Some? {
        options.PutBoolean(ArgAlwaysRecreate, alwaysRecreate.value);
      }
      if !useMainProcess && !IsEmpty(processNameSuffix) {
        options.PutString(ArgProcessName, processNameSuffix.value);
      }
      r := Success(options);
    }
  }
}

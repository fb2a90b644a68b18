/**
 * The source resolver (src/dashgram/integrations/base.py): finds which bot
 * framework an object comes from by the root segment of its module path,
 * looks that root up in a fixed table of converters, and converts the object
 * to a plain mapping with the converter it finds, or to `{}` when there is none.
 */
module Integrations {

  import opened Wrappers
  import opened Json
  import opened Utils

  /** The three framework converters the table can name. */
  datatype Converter = AiogramObjectToDict | TelegramObjectToDict | TelebotObjectToDict

  /**
   * A Python object that is not a `dict`: its `__module__` (absent on
   * instances of built-in types such as `list`, `str` or `int`) and the state
   * a converter reads.
   */
  datatype PyObject = PyObject(modulePath: Option<string>, state: Value)

  /** What converting an object can raise. */
  datatype ObjectError =
    | MissingModuleAttribute           // `obj.__module__` raised AttributeError
    | ConverterRaised(reason: string)  // the framework's own converter raised

  /**
   * The framework converters themselves, which are not part of this model:
   * given the converter the table chose, the object and the hint, what it
   * returns or raises.
   */
  type ConverterFn = (Converter, PyObject, Option<HandlerKind>) -> Result<Dict, ObjectError>

  /** `_MAPPING`: "telethon" is known but has no converter. */
  const Mapping: map<string, Option<Converter>> := map[
    "aiogram" := Some(AiogramObjectToDict),
    "telegram" := Some(TelegramObjectToDict),
    "telebot" := Some(TelebotObjectToDict),
    "telethon" := None
  ]

  /** `_MAPPING` has exactly four keys; each converter sits under its own root and "telethon" under none. */
  lemma MappingTable()
    ensures Mapping.Keys == {"aiogram", "telegram", "telebot", "telethon"}
    ensures Mapping["telethon"] == None
    ensures forall c: Converter :: Mapping[Root(c)] == Some(c)
  {
  }

  /** The table key under which each converter is registered. */
  function Root(c: Converter): string {
    match c
    case AiogramObjectToDict => "aiogram"
    case TelegramObjectToDict => "telegram"
    case TelebotObjectToDict => "telebot"
  }

  /** `path.split(".")[0]`: everything before the first dot, or all of it. */
  function RootSegment(path: string): (root: string)
    ensures root <= path
    ensures '.' !in root
    ensures |root| < |path| ==> path[|root|] == '.'
  {
    if path == [] || path[0] == '.' then [] else [path[0]] + RootSegment(path[1..])
  }

  /** Any text up to the first dot is the root segment, whatever follows the dot. */
  lemma {:induction false} RootSegmentOfDotted(root: string, rest: string)
    requires '.' !in root
    ensures RootSegment(root + "." + rest) == root
  {
    if root != [] {
      assert (root + "." + rest)[1..] == root[1..] + "." + rest;
      RootSegmentOfDotted(root[1..], rest);
    }
  }

  lemma {:induction false} RootSegmentOfUndotted(path: string)
    requires '.' !in path
    ensures RootSegment(path) == path
  {
    if path != [] {
      RootSegmentOfUndotted(path[1..]);
    }
  }

  /** `get_package`: the root segment if it is a table key, else `None`. */
  function GetPackage(obj: PyObject): (r: Result<Option<string>, ObjectError>)
    ensures obj.modulePath.None? <==> r == Failure(MissingModuleAttribute)
    ensures obj.modulePath.Some? ==>
              && r.Success?
              && (r.value.Some? <==> RootSegment(obj.modulePath.value) in Mapping)
              && (r.value.Some? ==> r.value.value == RootSegment(obj.modulePath.value))
  {
    match obj.modulePath
    case None => Failure(MissingModuleAttribute)
    case Some(path) =>
      var package := RootSegment(path);
      if package !in Mapping then Success(None) else Success(Some(package))
  }

  /** `get_package` knows exactly the four framework names, and nothing else. */
  lemma GetPackageNoneIffUnknown(path: string, state: Value)
    ensures GetPackage(PyObject(Some(path), state)) == Success(None) <==>
              RootSegment(path) !in {"aiogram", "telegram", "telebot", "telethon"}
  {
  }

  /** `determine_object_source`: `_MAPPING.get(package)`, so `None` also for an unknown package. */
  function DetermineObjectSource(obj: PyObject): (r: Result<Option<Converter>, ObjectError>)
    ensures obj.modulePath.None? <==> r == Failure(MissingModuleAttribute)
    ensures r.Success? && r.value.Some? ==> Root(r.value.value) == RootSegment(obj.modulePath.value)
    ensures obj.modulePath.Some? && RootSegment(obj.modulePath.value) in {"aiogram", "telegram", "telebot"} ==>
              r.Success? && r.value.Some?
  {
    match GetPackage(obj)
    case Failure(e) => Failure(e)
    case Success(package) =>
      if package.Some? && package.value in Mapping then Success(Mapping[package.value]) else Success(None)
  }

  /** An object from a supported framework, whatever its sub-module, resolves to that framework's converter. */
  lemma DetermineSupportedSource(c: Converter, subModule: string, state: Value)
    ensures DetermineObjectSource(PyObject(Some(Root(c) + "." + subModule), state)) == Success(Some(c))
    ensures DetermineObjectSource(PyObject(Some(Root(c)), state)) == Success(Some(c))
  {
    RootSegmentOfDotted(Root(c), subModule);
    RootSegmentOfUndotted(Root(c));
    MappingTable();
    assert GetPackage(PyObject(Some(Root(c) + "." + subModule), state)) == Success(Some(Root(c)));
    assert GetPackage(PyObject(Some(Root(c)), state)) == Success(Some(Root(c)));
  }

  /** Unknown roots and "telethon" both resolve to no converter. */
  lemma DetermineUnsupportedSource(path: string, state: Value)
    requires RootSegment(path) !in {"aiogram", "telegram", "telebot"}
    ensures DetermineObjectSource(PyObject(Some(path), state)) == Success(None)
  {
  }

  /** `object_to_dict`: converts with the converter found, forwarding the hint; `{}` when none is found. */
  function ObjectToDict(obj: PyObject, hint: Option<HandlerKind>, convert: ConverterFn): (r: Result<Dict, ObjectError>)
    ensures DetermineObjectSource(obj).Failure? ==> r == Failure(MissingModuleAttribute)
    ensures DetermineObjectSource(obj) == Success(None) ==> r == Success(map[])
    ensures forall c :: DetermineObjectSource(obj) == Success(Some(c)) ==> r == convert(c, obj, hint)
  {
    match DetermineObjectSource(obj)
    case Failure(e) => Failure(e)
    case Success(None) => Success(map[])
    case Success(Some(conv)) => convert(conv, obj, hint)
  }

  /** An object of no supported framework converts to the empty mapping, not to an error. */
  lemma UnknownObjectToEmptyDict(path: string, state: Value, hint: Option<HandlerKind>, convert: ConverterFn)
    requires RootSegment(path) !in {"aiogram", "telegram", "telebot"}
    ensures ObjectToDict(PyObject(Some(path), state), hint, convert) == Success(map[])
  {
    DetermineUnsupportedSource(path, state);
  }

  /** An object of a supported framework is handed to that framework's converter with the hint unchanged. */
  lemma SupportedObjectToDict(c: Converter, subModule: string, state: Value, hint: Option<HandlerKind>, convert: ConverterFn)
    ensures ObjectToDict(PyObject(Some(Root(c) + "." + subModule), state), hint, convert)
              == convert(c, PyObject(Some(Root(c) + "." + subModule), state), hint)
    ensures ObjectToDict(PyObject(Some(Root(c)), state), hint, convert)
              == convert(c, PyObject(Some(Root(c)), state), hint)
  {
    DetermineSupportedSource(c, subModule, state);
  }
}

/**
 * The Janis data types the translators branch on, and the shape queries of
 * janis_core.translation_utils that the core calls (get_base_type, is_file_type,
 * is_secondary_type, is_array_secondary_type, is_file_pair_type,
 * is_file_pair_array_type, get_extensions).  translation_utils itself is not part of
 * this model: the queries below are its documented meaning written out.
 */
module JanisTypes {

  /**
   * A Janis DataType.  `File` stands for File and every File subclass: `name` is the
   * subclass's name() (for instance "FastqGzPair" or "BamBai"), `extensions` what
   * get_extensions() returns and `secondaries` its secondary_files().  In Janis,
   * Stdout and Stderr are File subclasses and Filename is a String subclass whose
   * generated_filename() is `generated`.  Every node carries its own `optional` flag.
   */
  datatype DataType =
    | String(optional: bool)
    | Int(optional: bool)
    | Float(optional: bool)
    | Double(optional: bool)
    | Boolean(optional: bool)
    | File(name: string, extensions: seq<string>, secondaries: seq<string>, optional: bool)
    | Directory(optional: bool)
    | Filename(generated: string, optional: bool)
    | Stdout(subtype: DataType, optional: bool)
    | Stderr(optional: bool)
    | Array(subtype: DataType, optional: bool)

  /** DataType.name(): the Janis class name of the outermost node. */
  function Name(t: DataType): string
  {
    match t
    case String(_) => "String"
    case Int(_) => "Int"
    case Float(_) => "Float"
    case Double(_) => "Double"
    case Boolean(_) => "Boolean"
    case File(name, _, _, _) => name
    case Directory(_) => "Directory"
    case Filename(_, _) => "Filename"
    case Stdout(_, _) => "Stdout"
    case Stderr(_) => "Stderr"
    case Array(_, _) => "Array"
  }

  /** get_base_type / fundamental_type: the type with every Array wrapper removed. */
  function BaseType(t: DataType): (b: DataType)
    ensures !b.Array?
    ensures !t.Array? ==> b == t
  {
    if t.Array? then BaseType(t.subtype) else t
  }

  /** isinstance(t, (File, Directory)): Stdout and Stderr are File subclasses. */
  predicate IsFileLike(t: DataType)
  {
    t.File? || t.Directory? || t.Stdout? || t.Stderr?
  }

  /** is_file_type: the base type is a File or a Directory. */
  predicate IsFileType(t: DataType)
  {
    IsFileLike(BaseType(t))
  }

  predicate HasSecondaries(t: DataType)
  {
    t.File? && |t.secondaries| > 0
  }

  /** is_secondary_type: a single (non-array) file with secondary files. */
  predicate IsSecondaryType(t: DataType)
  {
    !t.Array? && HasSecondaries(BaseType(t))
  }

  /** is_array_secondary_type / is_secondary_array_type: an array of such files. */
  predicate IsSecondaryArrayType(t: DataType)
  {
    t.Array? && HasSecondaries(BaseType(t))
  }

  /** The base type's class name is one of Janis's paired-read types. */
  predicate IsFilePairBase(t: DataType)
  {
    Name(BaseType(t)) in ["FastqPair", "FastqGzPair"]
  }

  /** is_file_pair_type: a single read pair. */
  predicate IsFilePairType(t: DataType)
  {
    !t.Array? && IsFilePairBase(t)
  }

  /** is_file_pair_array_type / is_array_file_pair_type: an array of read pairs. */
  predicate IsFilePairArrayType(t: DataType)
  {
    t.Array? && IsFilePairBase(t)
  }

  /**
   * translation_utils.get_extensions for a file type: the primary extension (the first
   * declared extension, when there is one) followed by the secondary extensions.
   */
  function GroupExtensions(t: DataType): (r: seq<string>)
    ensures HasSecondaries(BaseType(t)) ==> |r| >= |BaseType(t).secondaries| > 0
  {
    var b := BaseType(t);
    if b.File? then (if |b.extensions| > 0 then [b.extensions[0]] else []) + b.secondaries
    else []
  }

  /** A read-pair base type is a File: only File subclasses carry those class names. */
  lemma FilePairIsFile(t: DataType)
    requires IsFilePairBase(t)
    ensures BaseType(t).File? && IsFileType(t)
  {
  }
}

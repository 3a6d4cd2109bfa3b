/**
 * The resume document the expander works on, as the JSON value it is after
 * `JSON.parse(JSON.stringify(...))`. Only `work[].highlights[]` and
 * `work[].highlights_ref` are examined; every other field is carried along
 * opaquely in `rest`.
 */
module Resume {
  import opened Wrappers

  /**
   * A JSON value. Objects and arrays that the expander never looks inside are
   * opaque (`Nested`); `tag` only distinguishes one such value from another.
   */
  datatype Value =
    | Null
    | Bool(b: bool)
    | Num(x: real)
    | Str(s: string)
    | Nested(tag: nat)

  /**
   * JavaScript truthiness of a JSON value (JSON cannot carry NaN or
   * undefined): the falsy values are exactly `null`, `false`, `0` and `""`.
   */
  function Truthy(v: Value): (r: bool)
    ensures !r <==> v == Null || v == Bool(false) || v == Num(0.0) || v == Str("")
  {
    match v
    case Null => false
    case Bool(b) => b
    case Num(x) => x != 0.0
    case Str(s) => s != []
    case Nested(_) => true
  }

  /**
   * A property the code reads with `x && Array.isArray(x)`: missing, present
   * but not an array (`v` is then a non-array value), or an array.
   */
  datatype ArrayField<T> =
    | Absent
    | NotArray(v: Value)
    | Array(items: seq<T>)

  /** The fields of an object that the expander neither reads nor writes. */
  type Fields = seq<(string, Value)>

  /** One entry of `work`: its `highlights` bullets and its `highlights_ref` marker. */
  datatype Job = Job(highlights: ArrayField<Value>, highlightsRef: Option<Value>, rest: Fields)

  /** A resume document: its `work` list and everything else. */
  datatype Doc = Doc(work: ArrayField<Job>, rest: Fields)

  /** No field name occurs twice. */
  predicate DistinctNames(fields: Fields) {
    forall i, j :: 0 <= i < j < |fields| ==> fields[i].0 != fields[j].0
  }

  /** No field of `fields` is named `name`. */
  predicate Lacks(fields: Fields, name: string) {
    forall i :: 0 <= i < |fields| ==> fields[i].0 != name
  }

  /**
   * A job that is a JSON object: its other fields have distinct names, none
   * of them `highlights` or `highlights_ref`, which live in their own slots.
   */
  predicate WellFormedJob(job: Job) {
    DistinctNames(job.rest) && Lacks(job.rest, "highlights") && Lacks(job.rest, "highlights_ref")
  }

  /** A document that is a JSON object, with well-formed jobs when `work` is an array. */
  predicate WellFormedDoc(d: Doc) {
    && DistinctNames(d.rest)
    && Lacks(d.rest, "work")
    && (d.work.Array? ==> forall i :: 0 <= i < |d.work.items| ==> WellFormedJob(d.work.items[i]))
  }

  /** The one-job, one-bullet document used by the expander's examples. */
  function SingleBulletDoc(bullet: Value): Doc {
    Doc(Array([Job(Array([bullet]), None, [])]), [])
  }
}

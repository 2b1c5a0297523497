/** Small value types shared by every module of the model. */
module Common {

  /** A value that may be absent: JavaScript's `null` / `undefined`. */
  datatype Option<+T> = None | Some(value: T) {

    /** The value, or `default` when absent (the `??` operator). */
    function GetOr(default: T): T {
      match this
      case Some(v) => v
      case None => default
    }
  }

  /** Three numbers, as stored in a `Float32Array(3)` (no float32 rounding is modelled). */
  datatype Vec3 = Vec3(x: real, y: real, z: real)

  /** A rotation quaternion `[x, y, z, w]`, kept as an opaque four-tuple. */
  datatype Quat = Quat(x: real, y: real, z: real, w: real)

  const Origin := Vec3(0.0, 0.0, 0.0)
  const UnitScale := Vec3(1.0, 1.0, 1.0)
  const IdentityRotation := Quat(0.0, 0.0, 0.0, 1.0)

  /** Component `axis` of a position, as `position[axis]` reads it: `None` is JavaScript's
      `undefined` for an index outside 0..2. */
  function Component(p: Vec3, axis: int): (r: Option<real>)
    ensures r.Some? <==> 0 <= axis < 3
    ensures axis == 0 ==> r == Some(p.x)
    ensures axis == 1 ==> r == Some(p.y)
    ensures axis == 2 ==> r == Some(p.z)
  {
    if axis == 0 then Some(p.x)
    else if axis == 1 then Some(p.y)
    else if axis == 2 then Some(p.z)
    else None
  }

  /** No element occurs twice: the shape of a JavaScript `Set` iterated in insertion order. */
  ghost predicate Distinct<T>(s: seq<T>) {
    forall i, j :: 0 <= i < |s| && 0 <= j < |s| && i != j ==> s[i] != s[j]
  }

  /** A sequence with a head is distinct exactly when its tail is and does not hold the head. */
  lemma DistinctCons<T>(a: T, t: seq<T>)
    ensures Distinct([a] + t) <==> a !in t && Distinct(t)
  {
    var s := [a] + t;
    if Distinct(s) {
      forall i, j | 0 <= i < |t| && 0 <= j < |t| && i != j ensures t[i] != t[j] {
        assert s[i + 1] == t[i] && s[j + 1] == t[j];
      }
      forall k | 0 <= k < |t| ensures t[k] != a {
        assert s[k + 1] == t[k] && s[0] == a;
      }
    }
  }

  /** Appending keeps a sequence distinct exactly when the new element is not already in it. */
  lemma DistinctSnoc<T>(s: seq<T>, a: T)
    ensures Distinct(s + [a]) <==> a !in s && Distinct(s)
  {
    var r := s + [a];
    if Distinct(r) {
      forall i, j | 0 <= i < |s| && 0 <= j < |s| && i != j ensures s[i] != s[j] {
        assert r[i] == s[i] && r[j] == s[j];
      }
      forall k | 0 <= k < |s| ensures s[k] != a {
        assert r[k] == s[k] && r[|s|] == a;
      }
    }
  }

  /** Regrouping a log followed by five consecutive segments. */
  lemma AppendRegroup<T>(x: seq<T>, a: seq<T>, b: seq<T>, c: seq<T>, d: seq<T>, e: seq<T>)
    ensures x + a + b + c + d + e == x + (a + b + c + d + e)
  {
  }
}

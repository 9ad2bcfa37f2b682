/**
 * The in-memory user table: records appended by registration and a
 * nearest-match search over their face embeddings. Embeddings are sequences
 * of reals; the Euclidean norm of their difference is a given function.
 * Persisting the table, the fresh user id and the clock are outside the
 * model: the id and the timestamp are parameters.
 */
module Storage {
  import opened Promises

  /** A stored user: id, registration time, embedding, its length, the model that produced it, the form data. */
  datatype UserRecord = UserRecord(
    userId: string,
    timestamp: string,
    embedding: seq<real>,
    embeddingDim: nat,
    modelName: string,
    data: map<string, string>)

  /** A distance between embeddings; infinite when they cannot be compared. */
  datatype Distance = Finite(value: real) | Infinite

  /** The strict order of floats restricted to the values a distance takes: infinity is below nothing. */
  predicate Below(a: Distance, b: Distance) {
    match (a, b)
    case (Finite(x), Finite(y)) => x < y
    case (Finite(_), Infinite) => true
    case (Infinite, _) => false
  }

  /** `a < b` and `b <= c` give `a < c`. */
  lemma BelowThenNotBelow(a: Distance, b: Distance, c: Distance)
    requires Below(a, b) && !Below(c, b)
    ensures Below(a, c)
  {
  }

  /** `_calculate_distance`: infinite for embeddings of different shapes, the norm of the difference otherwise. */
  function CalculateDistance(norm: (seq<real>, seq<real>) -> real, e1: seq<real>, e2: seq<real>): (d: Distance)
    ensures d.Infinite? <==> |e1| != |e2|
  {
    if |e1| != |e2| then Infinite else Finite(norm(e1, e2))
  }

  /** The distance from `probe` to every stored user, in table order. */
  function Distances(norm: (seq<real>, seq<real>) -> real, probe: seq<real>, users: seq<UserRecord>): seq<Distance> {
    seq(|users|, i requires 0 <= i < |users| => CalculateDistance(norm, probe, users[i].embedding))
  }

  /** Position `k` holds a smallest distance, and every earlier position a strictly larger one. */
  ghost predicate IsFirstNearest(ds: seq<Distance>, k: nat) {
    && k < |ds|
    && (forall j :: 0 <= j < |ds| ==> !Below(ds[j], ds[k]))
    && (forall j :: 0 <= j < k ==> Below(ds[k], ds[j]))
  }

  /** What a first nearest position `k` says about position `l`. */
  lemma NearestAt(ds: seq<Distance>, k: nat, l: nat)
    requires IsFirstNearest(ds, k) && l < |ds|
    ensures !Below(ds[l], ds[k]) && (l < k ==> Below(ds[k], ds[l]))
  {
  }

  /** There is at most one first nearest position. */
  lemma FirstNearestUnique(ds: seq<Distance>, k: nat, l: nat)
    requires IsFirstNearest(ds, k) && IsFirstNearest(ds, l)
    ensures k == l
  {
    NearestAt(ds, k, l);
    NearestAt(ds, l, k);
  }

  /** The record built by `add_user`. */
  function NewRecord(userId: string, timestamp: string, userData: map<string, string>,
                     embedding: seq<real>, modelName: string): (r: UserRecord)
    ensures r.data == userData && r.embedding == embedding && r.embeddingDim == |embedding| && r.modelName == modelName
  {
    UserRecord(userId, timestamp, embedding, |embedding|, modelName, userData)
  }

  class StorageManager {
    /** The configured recognition model, recorded with every new user. */
    const modelName: string
    var users: seq<UserRecord>

    /** A table holding what was loaded from the database file (nothing when there was none). */
    constructor (modelName: string, loaded: seq<UserRecord>)
      ensures this.modelName == modelName && users == loaded
    {
      this.modelName := modelName;
      users := loaded;
    }

    /** `add_user`: exactly one record appended at the end, the earlier ones untouched. */
    method AddUser(userData: map<string, string>, embedding: seq<real>, userId: string, timestamp: string)
      returns (id: string)
      modifies this`users
      ensures id == userId
      ensures users == old(users) + [NewRecord(userId, timestamp, userData, embedding, modelName)]
      ensures |users| == |old(users)| + 1 && users[..|old(users)|] == old(users)
    {
      users := users + [NewRecord(userId, timestamp, userData, embedding, modelName)];
      id := userId;
    }

    /** `get_user_count`. */
    method GetUserCount() returns (n: nat)
      ensures n == |users|
    {
      n := |users|;
    }

    /**
     * `find_matching_user`: the first user at the smallest distance, when that
     * distance is strictly below `threshold`; nothing otherwise, and nothing
     * for an empty table. A user whose embedding has another length is never
     * returned.
     */
    method FindMatchingUser(norm: (seq<real>, seq<real>) -> real, probe: seq<real>, threshold: real)
      returns (found: Option<UserRecord>)
      ensures var ds := Distances(norm, probe, users);
        && (found.None? <==> forall j :: 0 <= j < |users| ==> !Below(ds[j], Finite(threshold)))
        && (found.Some? ==> exists k: nat :: IsFirstNearest(ds, k) && users[k] == found.value && Below(ds[k], Finite(threshold)))
      ensures found.Some? ==> |found.value.embedding| == |probe|
    {
      if users == [] {
        return None;
      }
      ghost var ds := Distances(norm, probe, users);
      var bestMatch: Option<UserRecord> := None;
      var bestDistance := Infinite;
      ghost var best: nat := 0;
      for i := 0 to |users|
        invariant bestMatch.None? ==> bestDistance == Infinite && forall j :: 0 <= j < i ==> ds[j] == Infinite
        invariant bestMatch.Some? ==>
          && best < i && bestMatch.value == users[best] && bestDistance == ds[best]
          && (forall j :: 0 <= j < i ==> !Below(ds[j], bestDistance))
          && (forall j :: 0 <= j < best ==> Below(bestDistance, ds[j]))
      {
        var distance := CalculateDistance(norm, probe, users[i].embedding);
        if Below(distance, bestDistance) {
          forall j | 0 <= j < i ensures Below(distance, ds[j]) {
            BelowThenNotBelow(distance, bestDistance, ds[j]);
          }
          bestDistance := distance;
          bestMatch := Some(users[i]);
          best := i;
        }
      }
      if Below(bestDistance, Finite(threshold)) {
        assert IsFirstNearest(ds, best);
        return bestMatch;
      }
      forall j | 0 <= j < |users| ensures !Below(ds[j], Finite(threshold)) {
        if bestMatch.Some? && Below(ds[j], Finite(threshold)) {
          BelowThenNotBelow(ds[j], Finite(threshold), bestDistance);
        }
      }
      return None;
    }
  }
}

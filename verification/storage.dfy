/** The records the dashboards read, and one user's storage usage as the user
    homepage computes it (`createStorageUsage`). */
module Storage {
  import opened Wrappers
  import opened Sums

  /** A stored file; the dashboards read only its size in bytes. */
  datatype File = File(size: int)

  /** A user record as the Users service returns it: an identifier, the
      purchased quota in bytes and the user's files, in the service's order. */
  datatype User = User(id: string, totalUserStorage: int, files: seq<File>)

  /** Derived usage of one user; `availableStorage` is negative when the
      user is over quota. */
  datatype StorageUsage = StorageUsage(availableStorage: int, usedStorage: int)

  /** The size of a file, as a term of a sum. */
  function Size(f: File): int
  {
    f.size
  }

  /** Reference definition: the bytes a user's files take, each file counted once. */
  function UsedBy(u: User): int
  {
    SumOf(u.files, Size)
  }

  /** The quota of a user, as a term of a sum. */
  function Quota(u: User): int
  {
    u.totalUserStorage
  }

  /** The array `reduce` the homepage uses: a left fold that adds each
      file's size onto an accumulator, first file first. */
  function Reduce(files: seq<File>, acc: int): int
    decreases |files|
  {
    if |files| == 0 then acc else Reduce(files[1..], acc + files[0].size)
  }

  /** The left fold computes the same total as the reference sum. */
  lemma {:induction false} ReduceIsSum(files: seq<File>, acc: int)
    ensures Reduce(files, acc) == acc + SumOf(files, Size)
    decreases |files|
  {
    if |files| > 0 {
      ReduceIsSum(files[1..], acc + files[0].size);
    }
  }

  /** `createStorageUsage`: no usage for an absent user (no error is raised);
      otherwise the used bytes are the sum of the file sizes and the available
      bytes are what is left of the quota, without clamping at zero. */
  function CreateStorageUsage(userData: Option<User>): (r: Option<StorageUsage>)
    ensures r.None? <==> userData.None?
    ensures userData.Some? ==> r.value.usedStorage == UsedBy(userData.value)
    ensures userData.Some? ==>
      r.value.usedStorage + r.value.availableStorage == userData.value.totalUserStorage
    ensures userData.Some? && userData.value.files == [] ==>
      r.value == StorageUsage(userData.value.totalUserStorage, 0)
  {
    match userData
    case None => None
    case Some(u) =>
      var sizeUsed := if |u.files| > 0 then Reduce(u.files, 0) else 0;
      ReduceIsSum(u.files, 0);
      Some(StorageUsage(u.totalUserStorage - sizeUsed, sizeUsed))
  }

  /** The used bytes of a user as `createStorageUsage` reports them. */
  function ReportedUsage(u: User): int
  {
    CreateStorageUsage(Some(u)).value.usedStorage
  }

  /** The reported usage does not depend on the order of the user's files. */
  lemma UsageIgnoresFileOrder(u: User, files: seq<File>)
    requires multiset(files) == multiset(u.files)
    ensures CreateStorageUsage(Some(u.(files := files))) == CreateStorageUsage(Some(u))
  {
    SumOfPermutation(files, u.files, Size);
  }

  /** With no negative file size, the used bytes are non-negative and the
      available bytes never exceed the quota. */
  lemma UsageBounds(u: User)
    requires forall i :: 0 <= i < |u.files| ==> 0 <= u.files[i].size
    ensures 0 <= CreateStorageUsage(Some(u)).value.usedStorage
    ensures CreateStorageUsage(Some(u)).value.availableStorage <= u.totalUserStorage
  {
    SumOfNonNegative(u.files, Size);
  }

  /** A quota of 1000 bytes with files of 200 and 300 bytes leaves 500 bytes. */
  lemma UsageExample()
    ensures CreateStorageUsage(Some(User("u", 1000, [File(200), File(300)])))
         == Some(StorageUsage(500, 500))
  {
    var files := [File(200), File(300)];
    assert SumOf(files, Size) == 200 + SumOf(files[1..], Size);
    assert SumOf(files[1..], Size) == 300 + SumOf(files[2..], Size);
  }
}

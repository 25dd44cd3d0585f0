/** The admin dashboard's fleet totals: the three loops of the admin page
    (`getAllStorageBought`, `getTotalStorageUsed`, `getTotalFiles`) and the
    reference sums they compute. */
module Fleet {
  import opened Sums
  import opened Storage

  /** Every file of every user, users in order and each user's files in order. */
  function AllFiles(users: seq<User>): seq<File>
    decreases |users|
  {
    if |users| == 0 then [] else users[0].files + AllFiles(users[1..])
  }

  /** The number of files of a user, as a term of a sum. */
  function FileCountOf(u: User): int
  {
    |u.files|
  }

  /** Reference: the storage bought by all users together. */
  function StorageBought(users: seq<User>): int
  {
    SumOf(users, Quota)
  }

  /** Reference: the storage used by all users together, user by user. */
  function StorageUsed(users: seq<User>): int
  {
    SumOf(users, UsedBy)
  }

  /** Reference: the number of files of all users together, user by user. */
  function FileCount(users: seq<User>): int
  {
    SumOf(users, FileCountOf)
  }

  /** The fleet metrics shown on the admin dashboard. */
  datatype Totals = Totals(bought: int, used: int, files: int, userCount: nat)

  /** The fleet metrics of a user list: the bought storage is the sum of the
      quotas, the used storage is the sum of the sizes of all files of all
      users, and the file count is the number of all those files. */
  function Aggregate(users: seq<User>): (t: Totals)
    ensures t.bought == SumOf(users, Quota)
    ensures t.used == SumOf(AllFiles(users), Size)
    ensures t.files == |AllFiles(users)|
    ensures t.userCount == |users|
  {
    UsedIsSumOverAllFiles(users);
    FileCountIsAllFiles(users);
    Totals(StorageBought(users), StorageUsed(users), FileCount(users), |users|)
  }

  /** The files of a concatenation of user lists are the two lists' files. */
  lemma {:induction false} AllFilesConcat(a: seq<User>, b: seq<User>)
    ensures AllFiles(a + b) == AllFiles(a) + AllFiles(b)
    decreases |a|
  {
    if |a| == 0 {
      assert a + b == b;
    } else {
      assert (a + b)[1..] == a[1..] + b;
      AllFilesConcat(a[1..], b);
    }
  }

  /** Summing user by user gives the sum over all files of the fleet: no file
      is counted twice and none is left out. */
  lemma {:induction false} UsedIsSumOverAllFiles(users: seq<User>)
    ensures StorageUsed(users) == SumOf(AllFiles(users), Size)
    decreases |users|
  {
    if |users| > 0 {
      UsedIsSumOverAllFiles(users[1..]);
      SumOfConcat(users[0].files, AllFiles(users[1..]), Size);
    }
  }

  /** Counting user by user gives the number of all files of the fleet. */
  lemma {:induction false} FileCountIsAllFiles(users: seq<User>)
    ensures FileCount(users) == |AllFiles(users)|
    decreases |users|
  {
    if |users| > 0 {
      FileCountIsAllFiles(users[1..]);
    }
  }

  /** `getAllStorageBought`: the loop adds every user's quota. */
  method GetAllStorageBought(users: seq<User>) returns (total: int)
    ensures total == SumOf(users, Quota)
    ensures users == [] ==> total == 0
  {
    total := 0;
    for i := 0 to |users|
      invariant total == SumOf(users[..i], Quota)
    {
      SumOfPrefixStep(users, i, Quota);
      total := total + users[i].totalUserStorage;
    }
    assert users[..|users|] == users;
  }

  /** `getTotalStorageUsed`: the nested loop adds the size of every file of
      every user. */
  method GetTotalStorageUsed(users: seq<User>) returns (totalUsed: int)
    ensures totalUsed == SumOf(AllFiles(users), Size)
    ensures AllFiles(users) == [] ==> totalUsed == 0
  {
    totalUsed := 0;
    for i := 0 to |users|
      invariant totalUsed == SumOf(users[..i], UsedBy)
    {
      var files := users[i].files;
      ghost var before := totalUsed;
      for j := 0 to |files|
        invariant totalUsed == before + SumOf(files[..j], Size)
      {
        SumOfPrefixStep(files, j, Size);
        totalUsed := totalUsed + files[j].size;
      }
      assert files[..|files|] == files;
      SumOfPrefixStep(users, i, UsedBy);
    }
    assert users[..|users|] == users;
    UsedIsSumOverAllFiles(users);
  }

  /** `getTotalFiles`: the loop adds every user's number of files. */
  method GetTotalFiles(users: seq<User>) returns (totalFiles: int)
    ensures totalFiles == |AllFiles(users)|
    ensures users == [] ==> totalFiles == 0
  {
    totalFiles := 0;
    for i := 0 to |users|
      invariant totalFiles == SumOf(users[..i], FileCountOf)
    {
      SumOfPrefixStep(users, i, FileCountOf);
      totalFiles := totalFiles + |users[i].files|;
    }
    assert users[..|users|] == users;
    FileCountIsAllFiles(users);
  }

  /** An empty fleet has all-zero metrics. */
  lemma EmptyFleet()
    ensures Aggregate([]) == Totals(0, 0, 0, 0)
  {
  }

  /** Each fleet metric of a concatenation is the sum of the two parts' metrics. */
  lemma {:induction false} AggregateConcat(a: seq<User>, b: seq<User>)
    ensures Aggregate(a + b).bought == Aggregate(a).bought + Aggregate(b).bought
    ensures Aggregate(a + b).used == Aggregate(a).used + Aggregate(b).used
    ensures Aggregate(a + b).files == Aggregate(a).files + Aggregate(b).files
    ensures Aggregate(a + b).userCount == Aggregate(a).userCount + Aggregate(b).userCount
  {
    SumOfConcat(a, b, Quota);
    AllFilesConcat(a, b);
    SumOfConcat(AllFiles(a), AllFiles(b), Size);
  }

  /** The fleet metrics do not depend on the order of the users. */
  lemma AggregateIgnoresUserOrder(a: seq<User>, b: seq<User>)
    requires multiset(a) == multiset(b)
    ensures Aggregate(a) == Aggregate(b)
  {
    SumOfPermutation(a, b, Quota);
    SumOfPermutation(a, b, UsedBy);
    SumOfPermutation(a, b, FileCountOf);
    assert |a| == |multiset(a)| == |multiset(b)| == |b|;
  }

  /** Adding up what `createStorageUsage` reports for each user gives the
      admin page's total used storage: the user and fleet views agree. */
  lemma {:induction false} PerUserUsageAgreesWithFleet(users: seq<User>)
    ensures SumOf(users, ReportedUsage) == Aggregate(users).used
  {
    SumOfPointwise(users, ReportedUsage, UsedBy);
  }

  /** Three users with quotas 1000, 2000 and 3000 and files of sizes [100],
      [] and [50, 50]. */
  lemma AggregateExample()
    ensures Aggregate([User("a", 1000, [File(100)]), User("b", 2000, []),
                       User("c", 3000, [File(50), File(50)])])
         == Totals(6000, 200, 3, 3)
  {
    var users := [User("a", 1000, [File(100)]), User("b", 2000, []),
                  User("c", 3000, [File(50), File(50)])];
    var c := [File(50), File(50)];
    assert UsedBy(users[0]) == 100 by {
      assert SumOf([File(100)], Size) == 100 + SumOf([File(100)][1..], Size);
    }
    assert UsedBy(users[2]) == 100 by {
      assert SumOf(c, Size) == 50 + SumOf(c[1..], Size);
      assert SumOf(c[1..], Size) == 50 + SumOf(c[2..], Size);
    }
    assert users[1..][1..][1..] == [];
  }
}

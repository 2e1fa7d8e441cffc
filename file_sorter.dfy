/**
 * FileSorter: the comparators a result-file sorter is set up with for each
 * sorting method, the comparators themselves, and the comparison the sorter
 * currently performs.
 */
module FileSorting {
  import opened Wrappers
  import opened JavaText

  /** The AbstractFile attributes the comparators read; the string attributes may be null. */
  datatype AbstractFile = AbstractFile(
    id: int,
    name: Option<string>,
    size: int,
    dataSourceObjectId: int,
    parentPath: Option<string>,
    mimeType: Option<string>)

  /** A ResultFile: its AbstractFile and the rankings of its file type and frequency category. */
  datatype ResultFile = ResultFile(file: AbstractFile, fileTypeRanking: int, frequencyRanking: int)

  /** FileSorter.SortingMethod. */
  datatype SortingMethod =
    | ByDataSource | ByFileName | ByFileSize | ByFileType | ByFrequency | ByKeywordListNames | ByParentPath

  /** The comparators the get*Comparator factories return. */
  datatype FileComparator =
    | DataSourceComparator
    | FileTypeComparator
    | ParentPathComparator
    | FrequencyComparator
    | MimeTypeComparator
    | FileSizeComparator
    | FileNameComparator
    | DefaultComparator

  /** A null string compares as the empty string. */
  function OrEmpty(s: Option<string>): string {
    if s.Some? then s.value else ""
  }

  /** compareStrings: String.compareTo with null read as "". */
  function CompareStrings(s1: Option<string>, s2: Option<string>): int {
    CompareTo(OrEmpty(s1), OrEmpty(s2))
  }

  /** compareStrings is zero exactly when the strings are equal once null is read as "", and swapping negates it. */
  lemma CompareStringsProperties(s1: Option<string>, s2: Option<string>)
    ensures CompareStrings(s1, s2) == 0 <==> OrEmpty(s1) == OrEmpty(s2)
    ensures CompareStrings(s1, s2) == -CompareStrings(s2, s1)
    ensures CompareStrings(None, Some("")) == 0 && CompareStrings(None, None) == 0
    ensures s1.Some? && s2.Some? ==> CompareStrings(s1, s2) == CompareTo(s1.value, s2.value)
  {
    CompareToZeroIff(OrEmpty(s1), OrEmpty(s2));
    CompareToAntisymmetric(OrEmpty(s1), OrEmpty(s2));
  }

  /** The file-name comparison, which the default comparator starts with. */
  function CompareNames(f1: ResultFile, f2: ResultFile): int {
    CompareStrings(f1.file.name, f2.file.name)
  }

  /** What each comparator returns for a pair of files. */
  function CompareWith(c: FileComparator, f1: ResultFile, f2: ResultFile): int {
    match c
    case DataSourceComparator => LongCompare(f1.file.dataSourceObjectId, f2.file.dataSourceObjectId)
    case FileTypeComparator => LongCompare(f1.fileTypeRanking, f2.fileTypeRanking)
    case ParentPathComparator => CompareStrings(f1.file.parentPath, f2.file.parentPath)
    case FrequencyComparator => LongCompare(f1.frequencyRanking, f2.frequencyRanking)
    case MimeTypeComparator => CompareStrings(f1.file.mimeType, f2.file.mimeType)
    case FileSizeComparator => -1 * LongCompare(f1.file.size, f2.file.size)
    case FileNameComparator => CompareNames(f1, f2)
    case DefaultComparator =>
      var result := CompareNames(f1, f2);
      if result == 0 then LongCompare(f1.file.id, f2.file.id) else result
  }

  /** The size comparator puts larger files first; the data-source comparator orders by ascending object id. */
  lemma SizeDescendingDataSourceAscending(f1: ResultFile, f2: ResultFile)
    ensures CompareWith(FileSizeComparator, f1, f2) < 0 <==> f1.file.size > f2.file.size
    ensures CompareWith(FileSizeComparator, f1, f2) == -LongCompare(f1.file.size, f2.file.size)
    ensures CompareWith(DataSourceComparator, f1, f2) < 0 <==> f1.file.dataSourceObjectId < f2.file.dataSourceObjectId
    ensures CompareWith(DataSourceComparator, f1, f2) == 0 <==> f1.file.dataSourceObjectId == f2.file.dataSourceObjectId
  {
  }

  /** The default comparator ties exactly the files with equal names (null read as "") and equal ids. */
  lemma DefaultComparatorZeroIff(f1: ResultFile, f2: ResultFile)
    ensures CompareWith(DefaultComparator, f1, f2) == 0 <==>
      OrEmpty(f1.file.name) == OrEmpty(f2.file.name) && f1.file.id == f2.file.id
  {
    CompareStringsProperties(f1.file.name, f2.file.name);
  }

  /** Swapping the files negates every comparator's result exactly. */
  lemma ComparatorAntisymmetric(c: FileComparator, f1: ResultFile, f2: ResultFile)
    ensures CompareWith(c, f1, f2) == -CompareWith(c, f2, f1)
  {
    CompareStringsProperties(f1.file.parentPath, f2.file.parentPath);
    CompareStringsProperties(f1.file.mimeType, f2.file.mimeType);
    CompareStringsProperties(f1.file.name, f2.file.name);
  }

  /** Files a comparator ties compare alike against any third file. */
  lemma ComparatorTieSubstitutes(c: FileComparator, f1: ResultFile, f2: ResultFile, f3: ResultFile)
    requires CompareWith(c, f1, f2) == 0
    ensures CompareWith(c, f1, f3) == CompareWith(c, f2, f3)
  {
    CompareStringsProperties(f1.file.parentPath, f2.file.parentPath);
    CompareStringsProperties(f1.file.mimeType, f2.file.mimeType);
    CompareStringsProperties(f1.file.name, f2.file.name);
  }

  /** Every comparator orders files transitively. */
  lemma ComparatorTransitive(c: FileComparator, f1: ResultFile, f2: ResultFile, f3: ResultFile)
    requires CompareWith(c, f1, f2) < 0 && CompareWith(c, f2, f3) < 0
    ensures CompareWith(c, f1, f3) < 0
  {
    match c
    case ParentPathComparator =>
      CompareToTransitive(OrEmpty(f1.file.parentPath), OrEmpty(f2.file.parentPath), OrEmpty(f3.file.parentPath));
    case MimeTypeComparator =>
      CompareToTransitive(OrEmpty(f1.file.mimeType), OrEmpty(f2.file.mimeType), OrEmpty(f3.file.mimeType));
    case FileNameComparator =>
      CompareToTransitive(OrEmpty(f1.file.name), OrEmpty(f2.file.name), OrEmpty(f3.file.name));
    case DefaultComparator =>
      var n1, n2, n3 := OrEmpty(f1.file.name), OrEmpty(f2.file.name), OrEmpty(f3.file.name);
      CompareToZeroIff(n1, n2);
      CompareToZeroIff(n2, n3);
      CompareToZeroIff(n1, n3);
      if CompareTo(n1, n2) < 0 && CompareTo(n2, n3) < 0 {
        CompareToTransitive(n1, n2, n3);
      }
    case _ =>
  }

  // ---------------------------------------------------------------------------
  // The sorter

  /** The comparators applied one after the other: the first non-zero result decides. */
  function Lexicographic(cs: seq<FileComparator>, f1: ResultFile, f2: ResultFile): int {
    if cs == [] then 0
    else
      var result := CompareWith(cs[0], f1, f2);
      if result != 0 then result else Lexicographic(cs[1..], f1, f2)
  }

  /** Swapping the files negates the chained comparison exactly. */
  lemma {:induction false} LexicographicAntisymmetric(cs: seq<FileComparator>, f1: ResultFile, f2: ResultFile)
    ensures Lexicographic(cs, f1, f2) == -Lexicographic(cs, f2, f1)
  {
    if cs != [] {
      ComparatorAntisymmetric(cs[0], f1, f2);
      LexicographicAntisymmetric(cs[1..], f1, f2);
    }
  }

  /** The chained comparison is zero exactly when every comparator ties the files. */
  lemma {:induction false} LexicographicZeroIff(cs: seq<FileComparator>, f1: ResultFile, f2: ResultFile)
    ensures Lexicographic(cs, f1, f2) == 0 <==> forall k :: 0 <= k < |cs| ==> CompareWith(cs[k], f1, f2) == 0
  {
    if cs != [] {
      LexicographicZeroIff(cs[1..], f1, f2);
      assert forall k :: 1 <= k < |cs| ==> cs[k] == cs[1..][k - 1];
    }
  }

  /** Files the chained comparison ties compare alike against any third file. */
  lemma {:induction false} LexicographicTieSubstitutes(cs: seq<FileComparator>, f1: ResultFile, f2: ResultFile, f3: ResultFile)
    requires Lexicographic(cs, f1, f2) == 0
    ensures Lexicographic(cs, f1, f3) == Lexicographic(cs, f2, f3)
  {
    if cs != [] {
      ComparatorTieSubstitutes(cs[0], f1, f2, f3);
      LexicographicTieSubstitutes(cs[1..], f1, f2, f3);
    }
  }

  /** The chained comparison orders files transitively. */
  lemma {:induction false} LexicographicTransitive(cs: seq<FileComparator>, f1: ResultFile, f2: ResultFile, f3: ResultFile)
    requires Lexicographic(cs, f1, f2) < 0 && Lexicographic(cs, f2, f3) < 0
    ensures Lexicographic(cs, f1, f3) < 0
  {
    var c := cs[0];
    var r12, r23 := CompareWith(c, f1, f2), CompareWith(c, f2, f3);
    if r12 < 0 && r23 < 0 {
      ComparatorTransitive(c, f1, f2, f3);
    } else if r12 == 0 && r23 == 0 {
      ComparatorTieSubstitutes(c, f1, f2, f3);
      LexicographicTransitive(cs[1..], f1, f2, f3);
    } else if r12 == 0 {
      ComparatorTieSubstitutes(c, f1, f2, f3);
    } else {
      ComparatorAntisymmetric(c, f2, f3);
      ComparatorAntisymmetric(c, f3, f2);
      ComparatorTieSubstitutes(c, f3, f2, f1);
      ComparatorAntisymmetric(c, f1, f3);
      ComparatorAntisymmetric(c, f2, f1);
    }
  }

  class FileSorter {
    /** The comparators the sorter was set up with, in the order they apply. */
    var comparators: seq<FileComparator>

    /** FileSorter(SortingMethod): the comparators for the method, then the default comparator. */
    constructor(sortingMethod: SortingMethod)
      ensures sortingMethod == ByDataSource ==> comparators == [DataSourceComparator, DefaultComparator]
      ensures sortingMethod == ByFileSize ==> comparators == [FileSizeComparator, DefaultComparator]
      ensures sortingMethod == ByFileType ==> comparators == [FileTypeComparator, MimeTypeComparator, DefaultComparator]
      ensures sortingMethod == ByFrequency ==> comparators == [FrequencyComparator, DefaultComparator]
      ensures sortingMethod == ByFileName ==> comparators == [FileNameComparator, DefaultComparator]
      ensures sortingMethod == ByKeywordListNames || sortingMethod == ByParentPath ==> comparators == [DefaultComparator]
      ensures |comparators| > 0 && comparators[|comparators| - 1] == DefaultComparator
      ensures ParentPathComparator !in comparators
    {
      comparators := [];
      match sortingMethod {
        case ByDataSource =>
          comparators := comparators + [DataSourceComparator];
        case ByFileSize =>
          comparators := comparators + [FileSizeComparator];
        case ByFileType =>
          comparators := comparators + [FileTypeComparator];
          comparators := comparators + [MimeTypeComparator];
        case ByFrequency =>
          comparators := comparators + [FrequencyComparator];
        case ByKeywordListNames =>
        case ByParentPath =>
        case ByFileName =>
          // falls through to the empty default case
          comparators := comparators + [FileNameComparator];
      }
      comparators := comparators + [DefaultComparator];
    }

    /** compare: as written, every pair of files compares equal. */
    function Compare(file1: ResultFile, file2: ResultFile): int {
      0
    }

    /** The comparison the sorter is set up for: its comparators, the first non-zero result deciding. */
    function ChainedCompare(file1: ResultFile, file2: ResultFile): (r: int)
      reads this
      ensures r == -Lexicographic(comparators, file2, file1)
      ensures r == 0 <==> forall k :: 0 <= k < |comparators| ==> CompareWith(comparators[k], file1, file2) == 0
    {
      LexicographicAntisymmetric(comparators, file1, file2);
      LexicographicZeroIff(comparators, file1, file2);
      Lexicographic(comparators, file1, file2)
    }
  }

  /**
   * With the default comparator last, the chained comparison ties only files
   * with equal names (null read as "") and equal ids, and it orders files
   * transitively; so over files with distinct ids the sort order does not
   * depend on the order the files were added.
   */
  lemma ChainedCompareIsConsistent(s: FileSorter, f1: ResultFile, f2: ResultFile, f3: ResultFile)
    requires |s.comparators| > 0 && s.comparators[|s.comparators| - 1] == DefaultComparator
    ensures s.ChainedCompare(f1, f2) == 0 ==> OrEmpty(f1.file.name) == OrEmpty(f2.file.name) && f1.file.id == f2.file.id
    ensures s.ChainedCompare(f1, f2) < 0 && s.ChainedCompare(f2, f3) < 0 ==> s.ChainedCompare(f1, f3) < 0
  {
    var cs := s.comparators;
    if s.ChainedCompare(f1, f2) == 0 {
      assert CompareWith(cs[|cs| - 1], f1, f2) == 0;
      DefaultComparatorZeroIff(f1, f2);
    }
    if s.ChainedCompare(f1, f2) < 0 && s.ChainedCompare(f2, f3) < 0 {
      LexicographicTransitive(cs, f1, f2, f3);
    }
  }

  /** Files that differ only in id are tied by every comparator but the default one, which orders them by id. */
  lemma {:induction false} IdOnlyDifference(cs: seq<FileComparator>, f1: ResultFile, f2: ResultFile)
    requires f1.file.name == f2.file.name && f1.file.parentPath == f2.file.parentPath && f1.file.mimeType == f2.file.mimeType
    requires f1.file.size == f2.file.size && f1.file.dataSourceObjectId == f2.file.dataSourceObjectId
    requires f1.fileTypeRanking == f2.fileTypeRanking && f1.frequencyRanking == f2.frequencyRanking
    requires f1.file.id < f2.file.id
    requires DefaultComparator in cs
    ensures Lexicographic(cs, f1, f2) < 0
  {
    CompareStringsProperties(f1.file.name, f2.file.name);
    CompareStringsProperties(f1.file.parentPath, f2.file.parentPath);
    CompareStringsProperties(f1.file.mimeType, f2.file.mimeType);
    if cs[0] != DefaultComparator {
      IdOnlyDifference(cs[1..], f1, f2);
    }
  }

  /**
   * As written, compare ties two files that differ in id, although the
   * comparators the sorter is set up with order them.
   */
  lemma StubCompareTiesDistinctFiles(s: FileSorter)
    requires |s.comparators| > 0 && s.comparators[|s.comparators| - 1] == DefaultComparator
    ensures var f1 := ResultFile(AbstractFile(1, Some("a"), 0, 0, None, None), 0, 0);
            var f2 := ResultFile(AbstractFile(2, Some("a"), 0, 0, None, None), 0, 0);
      s.Compare(f1, f2) == 0 && s.ChainedCompare(f1, f2) < 0
  {
    var f1 := ResultFile(AbstractFile(1, Some("a"), 0, 0, None, None), 0, 0);
    var f2 := ResultFile(AbstractFile(2, Some("a"), 0, 0, None, None), 0, 0);
    IdOnlyDifference(s.comparators, f1, f2);
  }
}

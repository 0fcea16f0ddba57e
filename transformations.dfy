/** The transformation catalog: the five variants, their flags and argument vocabularies, the
    factory that creates and builds them, and the schema-only Preprocess step. */
module Transformations {
  import opened Wrappers
  import opened Text
  import opened DataTypes
  import StaticNames

  /** TransformationType, numbered as the catalog: Empty = 0 … FilterBy = 4. */
  datatype TransformationType = Empty | DropColumns | SortBy | GroupBy | FilterBy

  /** A built transformation with its parameters. */
  datatype Transformation =
    | EmptyTransformation
    | DropColumnTransformation(dropHeaderNames: set<string>)
    | SortByTransformation(sortByHeaderName: string, direction: SortDirection)
    | GroupByTransformation(stringsToGroup: set<string>, groupAggregation: Aggregation, targetHeaderName: string)
    | FilterByTransformation(filterCondition: FilterCondition)

  function TypeOf(t: Transformation): TransformationType
  {
    match t
    case EmptyTransformation => Empty
    case DropColumnTransformation(_) => DropColumns
    case SortByTransformation(_, _) => SortBy
    case GroupByTransformation(_, _, _) => GroupBy
    case FilterByTransformation(_) => FilterBy
  }

  /** The catalog the query agent offers, in index order. */
  const Catalog: seq<TransformationType> := [Empty, DropColumns, SortBy, GroupBy, FilterBy]

  function IndexOf(t: TransformationType): nat
  {
    match t
    case Empty => 0
    case DropColumns => 1
    case SortBy => 2
    case GroupBy => 3
    case FilterBy => 4
  }

  /** GetTransformationName. */
  function Name(t: TransformationType): string
  {
    match t
    case Empty => "Empty"
    case DropColumns => "DropColumn"
    case SortBy => "SortBy"
    case GroupBy => "GroupBy"
    case FilterBy => "FilterBy"
  }

  /** The names of the catalog entries, in catalog order: the query agent's first choice list. */
  function CatalogNames(): (r: seq<string>)
    ensures |r| == |Catalog|
    ensures forall i :: 0 <= i < |r| ==> r[i] == Name(Catalog[i])
  {
    seq(|Catalog|, i requires 0 <= i < |Catalog| => Name(Catalog[i]))
  }

  const UnknownTransformationMessage: string := "Unknown transformation"

  /** TransformationFactory.Create: a parameterless variant for one of the five literal names. */
  function Create(transformation: string): (r: Result<TransformationType>)
    ensures r.Failure? ==> r.error == ArgumentException(UnknownTransformationMessage)
  {
    if transformation == "Empty" then Success(Empty)
    else if transformation == "DropColumn" then Success(DropColumns)
    else if transformation == "SortBy" then Success(SortBy)
    else if transformation == "GroupBy" then Success(GroupBy)
    else if transformation == "FilterBy" then Success(FilterBy)
    else Failure(ArgumentException(UnknownTransformationMessage))
  }

  /** TransformationFactory.CreateByIndex: the catalog entry at an index. */
  function CreateByIndex(index: int): (r: Result<TransformationType>)
    ensures r.Failure? ==> r.error == ArgumentException(UnknownTransformationMessage)
  {
    if index == 0 then Success(Empty)
    else if index == 1 then Success(DropColumns)
    else if index == 2 then Success(SortBy)
    else if index == 3 then Success(GroupBy)
    else if index == 4 then Success(FilterBy)
    else Failure(ArgumentException(UnknownTransformationMessage))
  }

  /** CreateByIndex succeeds exactly on 0..4 and yields the catalog entry there. */
  lemma CreateByIndexCatalog(index: int)
    ensures CreateByIndex(index).Success? <==> 0 <= index < |Catalog|
    ensures 0 <= index < |Catalog| ==> CreateByIndex(index) == Success(Catalog[index])
    ensures forall t :: CreateByIndex(IndexOf(t)) == Success(t)
  {
  }

  /** Create succeeds exactly on the five names GetTransformationName gives, and inverts it. */
  lemma CreateInvertsName(transformation: string)
    ensures Create(transformation).Success? <==> transformation in CatalogNames()
    ensures Create(transformation).Success? ==> Name(Create(transformation).value) == transformation
    ensures forall t :: Create(Name(t)) == Success(t)
  {
    assert CatalogNames() == ["Empty", "DropColumn", "SortBy", "GroupBy", "FilterBy"];
    forall t
      ensures Create(Name(t)) == Success(t)
    {
      CreateOfName(t);
    }
  }

  lemma CreateOfName(t: TransformationType)
    ensures Create(Name(t)) == Success(t)
  {
  }

  /** The catalog lists each variant once, at the index IndexOf gives it. */
  lemma CatalogIndexes()
    ensures forall t :: IndexOf(t) < |Catalog| && Catalog[IndexOf(t)] == t
    ensures forall i, j :: 0 <= i < j < |Catalog| ==> Catalog[i] != Catalog[j]
  {
  }

  // ------------------------------------------------------------------ flags

  function TotalStepsNeeded(t: TransformationType): nat
  {
    match t
    case Empty => 0
    case DropColumns => 1
    case SortBy => 2
    case GroupBy => 2
    case FilterBy => 3
  }

  function HasArguments(t: TransformationType): bool
  {
    t == SortBy || t == GroupBy || t == FilterBy
  }

  function HasFollowingHumanArguments(t: TransformationType): bool
  {
    t == FilterBy
  }

  /** The step count is one step per stage the query agent runs for the variant: the column
      choice (every variant but Empty), the argument choice (HasArguments) and the free text
      (HasFollowingHumanArguments, which only comes after arguments). */
  lemma StepsAreStages(t: TransformationType)
    ensures TotalStepsNeeded(t) ==
              (if t == Empty then 0 else 1) + (if HasArguments(t) then 1 else 0) +
              (if HasFollowingHumanArguments(t) then 1 else 0)
    ensures HasFollowingHumanArguments(t) ==> HasArguments(t)
    ensures TotalStepsNeeded(t) <= 3
  {
  }

  // ------------------------------------------------------------------ moves and arguments

  /** GetNextMoves: the header names of the schema in order; nothing for Empty. */
  function GetNextMoves(t: TransformationType, fields: seq<EmptyField>): (r: seq<string>)
    ensures t == Empty ==> r == []
    ensures t != Empty ==> |r| == |fields| && forall i :: 0 <= i < |r| ==> r[i] == fields[i].header.name
  {
    if t == Empty then [] else seq(|fields|, i requires 0 <= i < |fields| => fields[i].header.name)
  }

  /** GetArguments: the fixed argument vocabulary (GroupKey is not offered). */
  function GetArguments(t: TransformationType): seq<string>
  {
    match t
    case Empty => []
    case DropColumns => []
    case SortBy => [StaticNames.Ascending, StaticNames.Descending]
    case GroupBy => [StaticNames.Sum, StaticNames.Average, StaticNames.Concat, StaticNames.CountDistinct, StaticNames.CountAll]
    case FilterBy => [StaticNames.Equals, StaticNames.NotEquals, StaticNames.LessThan, StaticNames.GreaterThan]
  }

  /** The message of the ArgumentOutOfRangeException GetArgumentAt throws: the text the
      exception's constructor is given is its parameter name. */
  function ArgumentAtMessage(index: int): string
  {
    "Specified argument was out of the range of valid values. (Parameter 'Index \"" + IntToString(index) +
    "\" in GetArgumentAt out of range')"
  }

  /** GetArgumentAt: the vocabulary entry at the index; Empty and DropColumn answer the empty text. */
  function GetArgumentAt(t: TransformationType, index: int): (r: Result<string>)
    ensures !HasArguments(t) ==> r == Success("")
    ensures HasArguments(t) ==>
              (r.Success? <==> 0 <= index < |GetArguments(t)|) &&
              (r.Success? ==> r.value == GetArguments(t)[index]) &&
              (r.Failure? ==> r.error == ArgumentException(ArgumentAtMessage(index)))
  {
    if !HasArguments(t) then Success("")
    else if index < 0 || index >= |GetArguments(t)| then Failure(ArgumentException(ArgumentAtMessage(index)))
    else Success(GetArguments(t)[index])
  }

  function GetNextMovesInstructions(t: TransformationType): string
  {
    match t
    case Empty => "Empty transformation has no next moves"
    case DropColumns => "Select Field.Header.Name to drop"
    case SortBy => "Choose one Field from the list below, by which you want to sort the dataset"
    case GroupBy => "Choose one Field.Header.Name from the dataset, by which you want to group the dataset"
    case FilterBy => "Choose one Field.Header.Name from the dataset, by which you want to filter the dataset"
  }

  function GetArgumentsInstructions(t: TransformationType): string
  {
    match t
    case Empty => ""
    case DropColumns => ""
    case SortBy => "Choose whether the sorting should be ascending or descending"
    case GroupBy => "Choose one of the following Agregations you want to apply on the grouped dataset"
    case FilterBy => "Choose one of the following Relations you want to apply on the filtered dataset"
  }

  function GetFollowingHumanArgumentsInstructions(t: TransformationType): string
  {
    if t == FilterBy then "Write down the right side of the relation." else ""
  }

  // ------------------------------------------------------------------ the builder

  /** Which variant a builder name selects: a catalog word or its index string. */
  function BuilderType(transformation: string): Option<TransformationType>
  {
    if transformation == StaticNames.Empty || transformation == "0" then Some(Empty)
    else if transformation == StaticNames.DropColumn || transformation == "1" then Some(DropColumns)
    else if transformation == StaticNames.SortBy || transformation == "2" then Some(SortBy)
    else if transformation == StaticNames.GroupBy || transformation == "3" then Some(GroupBy)
    else if transformation == StaticNames.FilterBy || transformation == "4" then Some(FilterBy)
    else None
  }

  function ParseDirection(s: string): Option<SortDirection>
  {
    if s == StaticNames.Ascending then Some(Ascending)
    else if s == StaticNames.Descending then Some(Descending)
    else None
  }

  function ParseAggregation(s: string): Option<Aggregation>
  {
    if s == StaticNames.Sum then Some(Sum)
    else if s == StaticNames.Average then Some(Mean)
    else if s == StaticNames.Concat then Some(ConcatValues)
    else if s == StaticNames.CountDistinct then Some(CountDistinct)
    else if s == StaticNames.CountAll then Some(CountAll)
    else if s == StaticNames.GroupKey then Some(GroupKey)
    else None
  }

  function ParseRelation(s: string): Option<Relation>
  {
    if s == StaticNames.Equals then Some(Equals)
    else if s == StaticNames.NotEquals then Some(NotEquals)
    else if s == StaticNames.LessThan then Some(LessThan)
    else if s == StaticNames.GreaterThan then Some(GreaterThan)
    else None
  }

  /** The arguments that are not empty, as a set. */
  function NonEmptyArguments(args: seq<string>): (r: set<string>)
    ensures forall a :: a in r <==> a in args && a != ""
  {
    set a | a in args && a != ""
  }

  function GroupsFrom(args: seq<string>): (r: set<string>)
    requires |args| >= 2
    ensures forall a :: a in r <==> a in args[2..]
  {
    set a | a in args[2..]
  }

  /** TransformationFactory.BuildTransformation. */
  function BuildTransformation(transformation: string, args: seq<string>): (r: Result<Transformation>)
    ensures r.Success? ==> BuilderType(transformation) == Some(TypeOf(r.value))
    ensures r.Failure? ==> r.error.ArgumentException?
  {
    var kind := BuilderType(transformation);
    if kind.None? then
      Failure(ArgumentException("Transformation \"" + transformation + "\" not supported"))
    else if kind == Some(Empty) then
      Success(EmptyTransformation)
    else if kind == Some(DropColumns) then
      if |args| < 1 then Failure(ArgumentException("Not enough arguments for DropColumn transformation"))
      else Success(DropColumnTransformation(NonEmptyArguments(args)))
    else if kind == Some(SortBy) then
      if |args| < 2 then Failure(ArgumentException("Not enough arguments for SortBy transformation"))
      else if ParseDirection(args[1]).None? then
        Failure(ArgumentException("SortDirection \"" + args[1] + "\" unrecognized"))
      else Success(SortByTransformation(args[0], ParseDirection(args[1]).value))
    else if kind == Some(GroupBy) then
      if |args| < 3 then Failure(ArgumentException("Not enough arguments for GroupBy transformation"))
      else if ParseAggregation(args[1]).None? then
        Failure(ArgumentException("Agregation \"" + args[1] + "\" not supported"))
      else Success(GroupByTransformation(GroupsFrom(args), ParseAggregation(args[1]).value, args[0]))
    else
      if |args| < 3 then Failure(ArgumentException("Not enough arguments for FilterBy transformation"))
      // the message quotes args[0], the column, not the unrecognised relation
      else if ParseRelation(args[1]).None? then
        Failure(ArgumentException("Operation \"" + args[0] + "\" not supported"))
      else Success(FilterByTransformation(FilterCondition(ParseRelation(args[1]).value, args[0], args[2])))
  }

  /** The index strings the query agent passes select the catalog entry at that index. */
  lemma BuilderTypeOfIndexString(t: TransformationType)
    ensures BuilderType(IntToString(IndexOf(t))) == Some(t)
  {
    SmallIntToString();
  }

  /** A recognised name determines the built transformation through its variant alone. */
  lemma BuildDependsOnType(a: string, b: string, args: seq<string>)
    requires BuilderType(a).Some? && BuilderType(a) == BuilderType(b)
    ensures BuildTransformation(a, args) == BuildTransformation(b, args)
  {
  }

  /** The variant the catalog name selects. */
  lemma BuilderTypeOfName(t: TransformationType)
    ensures BuilderType(Name(t)) == Some(t)
  {
  }

  /** The cases in which BuildTransformation throws: an unknown name, too few arguments
      (1, 2, 3, 3 for DropColumn, SortBy, GroupBy, FilterBy) or an unrecognised args[1]. */
  lemma BuildTransformationFails(transformation: string, args: seq<string>)
    ensures var kind := BuilderType(transformation);
            BuildTransformation(transformation, args).Failure? <==>
              kind.None? ||
              (kind == Some(DropColumns) && |args| < 1) ||
              (kind == Some(SortBy) && (|args| < 2 || ParseDirection(args[1]).None?)) ||
              (kind == Some(GroupBy) && (|args| < 3 || ParseAggregation(args[1]).None?)) ||
              (kind == Some(FilterBy) && (|args| < 3 || ParseRelation(args[1]).None?))
  {
  }

  /** What a successful build holds: DropColumn the non-empty arguments, SortBy the column
      args[0] and the direction args[1], GroupBy the target args[0], the aggregation args[1] and
      groups args[2..], FilterBy the column args[0], the relation args[1] and the literal args[2]. */
  lemma BuildTransformationParameters(transformation: string, args: seq<string>)
    requires BuildTransformation(transformation, args).Success?
    ensures var t := BuildTransformation(transformation, args).value;
            match t
            case EmptyTransformation => true
            case DropColumnTransformation(names) =>
              forall a :: a in names <==> a in args && a != ""
            case SortByTransformation(column, direction) =>
              |args| >= 2 && column == args[0] && ParseDirection(args[1]) == Some(direction)
            case GroupByTransformation(groups, aggregation, target) =>
              |args| >= 3 && target == args[0] && ParseAggregation(args[1]) == Some(aggregation) &&
              forall a :: a in groups <==> a in args[2..]
            case FilterByTransformation(condition) =>
              |args| >= 3 && condition.sourceHeaderName == args[0] &&
              ParseRelation(args[1]) == Some(condition.relation) && condition.condition == args[2]
  {
  }

  /** The argument vocabularies are read back by the builder: every entry GetArgumentAt offers
      parses as the direction, aggregation or relation of that name. */
  lemma VocabularyIsRecognised(t: TransformationType, index: int)
    requires HasArguments(t) && GetArgumentAt(t, index).Success?
    ensures var word := GetArgumentAt(t, index).value;
            (t == SortBy ==> ParseDirection(word).Some?) &&
            (t == GroupBy ==> ParseAggregation(word).Some? && ParseAggregation(word) != Some(GroupKey)) &&
            (t == FilterBy ==> ParseRelation(word).Some? && ParseRelation(word) != Some(InRange))
  {
  }

  // ------------------------------------------------------------------ Preprocess

  /** The schema entries whose name is not in the drop set, in order. */
  function DropSchema(list: seq<EmptyField>, names: set<string>): (r: seq<EmptyField>)
    ensures |r| <= |list|
  {
    if list == [] then []
    else (if list[0].header.name in names then [] else [list[0]]) + DropSchema(list[1..], names)
  }

  /** The fields whose name is not in the drop set, in order. */
  function DropFields(fields: seq<Field>, names: set<string>): (r: seq<Field>)
    ensures |r| <= |fields|
  {
    if fields == [] then []
    else (if fields[0].header.name in names then [] else [fields[0]]) + DropFields(fields[1..], names)
  }

  /** The schema with every column retyped to Number, names and indexes kept. */
  function RetypeToNumber(list: seq<EmptyField>): (r: seq<EmptyField>)
    ensures |r| == |list|
    ensures forall i :: 0 <= i < |r| ==>
              r[i].header == Header(list[i].header.name, Number, list[i].header.index)
  {
    seq(|list|, i requires 0 <= i < |list| => EmptyField(Header(list[i].header.name, Number, list[i].header.index)))
  }

  /** Preprocess: the schema a transformation leaves, computed without data. */
  function Preprocess(t: Transformation, list: seq<EmptyField>): (r: Result<seq<EmptyField>>)
    ensures t.EmptyTransformation? || t.SortByTransformation? || t.FilterByTransformation? ==> r == Success(list)
    ensures r.Failure? <==> t.GroupByTransformation? && t.groupAggregation == GroupKey
    ensures r.Failure? ==> r.error == ArgumentException("Unknown Agregation")
  {
    match t
    case EmptyTransformation => Success(list)
    case DropColumnTransformation(names) => Success(DropSchema(list, names))
    case SortByTransformation(_, _) => Success(list)
    case FilterByTransformation(_) => Success(list)
    case GroupByTransformation(_, aggregation, _) =>
      match aggregation
      case CountAll => Success(RetypeToNumber(list))
      case CountDistinct => Success(RetypeToNumber(list))
      case Sum => Success(RetypeToNumber(list))
      case Mean => Success(RetypeToNumber(list))
      case ConcatValues => Success([])
      case GroupKey => Failure(ArgumentException("Unknown Agregation"))
  }

  /** DropColumn keeps exactly the columns whose name is not in the drop set. */
  lemma {:induction false} DropSchemaKeeps(list: seq<EmptyField>, names: set<string>)
    ensures forall f :: f in DropSchema(list, names) <==> f in list && f.header.name !in names
  {
    if list != [] {
      DropSchemaKeeps(list[1..], names);
      assert list == [list[0]] + list[1..];
    }
  }

  lemma {:induction false} DropFieldsKeeps(fields: seq<Field>, names: set<string>)
    ensures forall f :: f in DropFields(fields, names) <==> f in fields && f.header.name !in names
  {
    if fields != [] {
      DropFieldsKeeps(fields[1..], names);
      assert fields == [fields[0]] + fields[1..];
    }
  }

  /** Dropping distributes over concatenation, so the kept columns stay in their original order;
      dropping nothing is the identity. */
  lemma {:induction false} DropSchemaAppend(a: seq<EmptyField>, b: seq<EmptyField>, names: set<string>)
    ensures DropSchema(a + b, names) == DropSchema(a, names) + DropSchema(b, names)
  {
    if a == [] {
      assert a + b == b;
    } else {
      assert (a + b)[0] == a[0] && (a + b)[1..] == a[1..] + b;
      DropSchemaAppend(a[1..], b, names);
      var head := if a[0].header.name in names then [] else [a[0]];
      assert DropSchema(a + b, names) == head + DropSchema(a[1..] + b, names);
      assert DropSchema(a, names) == head + DropSchema(a[1..], names);
    }
  }

  lemma {:induction false} DropSchemaNothing(list: seq<EmptyField>)
    ensures DropSchema(list, {}) == list
  {
    if list != [] {
      DropSchemaNothing(list[1..]);
    }
  }

  lemma {:induction false} DropFieldsAppend(a: seq<Field>, b: seq<Field>, names: set<string>)
    ensures DropFields(a + b, names) == DropFields(a, names) + DropFields(b, names)
  {
    if a == [] {
      assert a + b == b;
    } else {
      assert (a + b)[0] == a[0] && (a + b)[1..] == a[1..] + b;
      DropFieldsAppend(a[1..], b, names);
      var head := if a[0].header.name in names then [] else [a[0]];
      assert DropFields(a + b, names) == head + DropFields(a[1..] + b, names);
      assert DropFields(a, names) == head + DropFields(a[1..], names);
    }
  }

  lemma {:induction false} DropFieldsNothing(fields: seq<Field>)
    ensures DropFields(fields, {}) == fields
  {
    if fields != [] {
      DropFieldsNothing(fields[1..]);
    }
  }

  lemma SchemaAppend(a: seq<Field>, b: seq<Field>)
    ensures Schema(a + b) == Schema(a) + Schema(b)
  {
  }

  /** DropColumn's Preprocess predicts the schema its PerformTransformation leaves. */
  lemma {:induction false} DropSchemaOfFields(fields: seq<Field>, names: set<string>)
    ensures DropSchema(Schema(fields), names) == Schema(DropFields(fields, names))
  {
    if fields != [] {
      var head: seq<Field> := if fields[0].header.name in names then [] else [fields[0]];
      assert Schema(fields)[0] == EmptyField(fields[0].header);
      assert Schema(fields)[1..] == Schema(fields[1..]);
      DropSchemaOfFields(fields[1..], names);
      SchemaAppend(head, DropFields(fields[1..], names));
    }
  }
}

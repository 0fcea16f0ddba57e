/** The words of the query vocabulary. The repository refers to them by name only; they are
    declared here as distinct texts that differ from the catalog index strings "0".."4", which is
    what the case labels of the transformation builder require of them. */
module StaticNames {
  const Empty: string := "Empty"
  const DropColumn: string := "DropColumn"
  const SortBy: string := "SortBy"
  const GroupBy: string := "GroupBy"
  const FilterBy: string := "FilterBy"

  const Ascending: string := "Ascending"
  const Descending: string := "Descending"

  const Sum: string := "Sum"
  const Average: string := "Average"
  const Concat: string := "Concat"
  const CountDistinct: string := "CountDistinct"
  const CountAll: string := "CountAll"
  const GroupKey: string := "GroupKey"

  const Equals: string := "Equals"
  const NotEquals: string := "NotEquals"
  const LessThan: string := "LessThan"
  const GreaterThan: string := "GreaterThan"
}

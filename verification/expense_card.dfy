/**
 * The two colour lookups of the expense card: a table from category to
 * badge classes with a neutral default, and a two-way choice by type.
 */
module ExpenseCard {
  import Schema

  /** The class string shown for a category missing from the table. */
  const Neutral := "bg-gray-100 text-gray-800"
  const NeedColor := "bg-green-100 text-green-800"
  const OtherTypeColor := "bg-orange-100 text-orange-800"

  /** `colors[category] || default`: the table's ten entries, each a
      non-empty string, and the default for any other category. */
  function CategoryColor(category: string): (r: string)
    ensures r != ""
    ensures category !in Schema.Categories ==> r == Neutral
    ensures r == Neutral <==> category == "Tools" || category !in Schema.Categories
  {
    match category
    case "Food" => "bg-red-100 text-red-800"
    case "Travel" => "bg-blue-100 text-blue-800"
    case "Shopping" => "bg-purple-100 text-purple-800"
    case "Tools" => "bg-gray-100 text-gray-800"
    case "Transport" => "bg-green-100 text-green-800"
    case "Rent" => "bg-yellow-100 text-yellow-800"
    case "Utilities" => "bg-indigo-100 text-indigo-800"
    case "Subscriptions" => "bg-pink-100 text-pink-800"
    case "Education" => "bg-orange-100 text-orange-800"
    case "Other" => "bg-teal-100 text-teal-800"
    case _ => Neutral
  }

  /** The listed classes of the ten categories, in the schema's order. */
  const Listed: seq<string> := [
    "bg-red-100 text-red-800", "bg-blue-100 text-blue-800", "bg-purple-100 text-purple-800",
    "bg-gray-100 text-gray-800", "bg-green-100 text-green-800", "bg-yellow-100 text-yellow-800",
    "bg-indigo-100 text-indigo-800", "bg-pink-100 text-pink-800", "bg-orange-100 text-orange-800",
    "bg-teal-100 text-teal-800"]

  /** Each category shows its listed classes; 'Tools' looks like the default. */
  lemma CategoryColorListed(i: nat)
    requires i < |Schema.Categories|
    ensures CategoryColor(Schema.Categories[i]) == Listed[i]
    ensures Schema.Categories[i] == "Tools" <==> Listed[i] == Neutral
  {
    var c := Schema.Categories[i];
    if i == 0 { assert c == "Food"; }
    else if i == 1 { assert c == "Travel"; }
    else if i == 2 { assert c == "Shopping"; }
    else if i == 3 { assert c == "Tools"; }
    else if i == 4 { assert c == "Transport"; }
    else if i == 5 { assert c == "Rent"; }
    else if i == 6 { assert c == "Utilities"; }
    else if i == 7 { assert c == "Subscriptions"; }
    else if i == 8 { assert c == "Education"; }
    else { assert c == "Other"; }
  }

  /** `type === 'Need' ? green : orange`. */
  function TypeColor(kind: string): (r: string)
    ensures r == NeedColor <==> kind == "Need"
    ensures kind != "Need" ==> r == OtherTypeColor
  {
    if kind == "Need" then NeedColor else OtherTypeColor
  }
}

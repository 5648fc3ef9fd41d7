/** The field and alias lists of a map layer's tooltip, built by inserting
    the city and district entries into the province lists. */
module Tooltip {

  /** `list.insert(i, x)`: `x` lands at position `i`, or at the end when `i`
      is past it. */
  function Insert(s: seq<string>, i: nat, x: string): (r: seq<string>)
    ensures |r| == |s| + 1
    ensures i <= |s| ==> r[..i] == s[..i] && r[i] == x && r[i + 1..] == s[i..]
    ensures i > |s| ==> r[..|s|] == s && r[|s|] == x
  {
    if i <= |s| then s[..i] + [x] + s[i..] else s + [x]
  }

  /** The alias shown for each tooltip field. */
  function AliasOf(field: string): string
  {
    if field == "WADMPR" then "Province"
    else if field == "WADMKK" then "City"
    else if field == "WADMKC" then "District"
    else if field == "2019_CUST_NO" then "Total Customer as of 2019"
    else if field == "2024_CUST_NO" then "Total Customer as of 2024"
    else if field == "CUSTOMER_GROWTH" then "Customer Growth (%)"
    else ""
  }

  const ProvinceFields: seq<string> := ["WADMPR", "2019_CUST_NO", "2024_CUST_NO", "CUSTOMER_GROWTH"]

  /** `create_tooltip(level)`: the province fields with their aliases; a city
      layer adds `WADMKK` after the province, a district layer adds `WADMKK`
      and then `WADMKC`. The i-th alias always names the i-th field. */
  method CreateTooltip(level: string) returns (fields: seq<string>, aliases: seq<string>)
    ensures |fields| == |aliases|
    ensures forall i :: 0 <= i < |fields| ==> aliases[i] == AliasOf(fields[i])
    ensures level == "kabupaten" ==>
      fields == ["WADMPR", "WADMKK", "2019_CUST_NO", "2024_CUST_NO", "CUSTOMER_GROWTH"]
    ensures level == "kecamatan" ==>
      fields == ["WADMPR", "WADMKK", "WADMKC", "2019_CUST_NO", "2024_CUST_NO", "CUSTOMER_GROWTH"]
    ensures level != "kabupaten" && level != "kecamatan" ==> fields == ProvinceFields
  {
    fields := ProvinceFields;
    aliases := ["Province", "Total Customer as of 2019", "Total Customer as of 2024", "Customer Growth (%)"];
    if level == "kabupaten" {
      fields := Insert(fields, 1, "WADMKK");
      aliases := Insert(aliases, 1, "City");
    } else if level == "kecamatan" {
      fields := Insert(fields, 1, "WADMKK");
      fields := Insert(fields, 2, "WADMKC");
      aliases := Insert(aliases, 1, "City");
      aliases := Insert(aliases, 2, "District");
    }
  }
}

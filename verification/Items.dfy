/** The item table. */
module Items {

  /** The damage a wielded item adds; the empty hand and unknown ids add none. */
  function WeaponDamage(id: string): nat {
    if id == "shiv" then 3 else if id == "rebar" then 6 else 0
  }

  predicate IsWeapon(id: string) {
    id == "shiv" || id == "rebar"
  }

  /** What the market pays before any bonus; nothing for what it will not touch. */
  function Value(id: string): nat {
    if id == "shiv" then 5
    else if id == "rebar" then 10
    else if id == "helm" then 6
    else if id == "plating" then 3
    else if id == "radcell" then 12
    else if id == "dust" then 2
    else 0
  }

  /** hg_item_name: the displayed name, or the id itself when it is unknown. */
  function Name(id: string): string {
    if id == "shiv" then "a rusted shiv"
    else if id == "rebar" then "a length of rebar"
    else if id == "helm" then "a dented scrap helm"
    else if id == "plating" then "a sheet of scrap plating"
    else if id == "charm" then "an elven charm"
    else if id == "radcell" then "a rad-cell"
    else if id == "antidote" then "a vial of antivenom"
    else if id == "dust" then "a pinch of dust"
    else id
  }

  /** The tinker's shelf. */
  const STOCK: seq<(string, int)> := [("helm", 14), ("plating", 18), ("rebar", 20)]
}

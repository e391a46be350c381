/** The tile categories of the board (the ResourceType enumeration). */
module Resources {

  /** Declaration order matters: Wood is the enumeration's first member, so it is the
      value a freshly created tile carries before any stage assigns it. */
  datatype ResourceType = Wood | Brick | Sheep | Wheat | Ore | Desert | Water

  /** The type a newly created tile holds (the enumeration's default value). */
  const DefaultType: ResourceType := Wood
}

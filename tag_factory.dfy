/** src/Factory/TagFactory.php: a `Tag` straight from its two fields. */
module TagFactory {
  import opened Model

  /** `TagFactory::create($name, $count = 0)`: no validation, so any name,
      the empty one included, is accepted. */
  function Create(name: string, count: int := 0): (t: Tag)
    ensures t.name == name && t.count == count
  {
    Tag(name, count)
  }

  /** Leaving the count out gives a tag that has been seen 0 times. */
  lemma DefaultCount(name: string)
    ensures Create(name) == Tag(name, 0)
  {
  }
}

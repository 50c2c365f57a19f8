/** What reading stored data back makes of each observation. */
module ReadingTheorems {
  import opened Wrappers
  import opened TextNormalization
  import opened ExtractionSchema
  import opened TextRules
  import opened Sequences
  import opened StoredExtraction

  predicate IsReadField(stored: Field, read: Field) {
    && read.id == stored.id && read.page == stored.page && read.region == stored.region
    && read.name == Normalize(stored.name) && read.value == Normalize(stored.value)
  }

  predicate IsReadBlock(stored: Block, read: Block) {
    && read.id == stored.id && read.page == stored.page && read.region == stored.region
    && read.text == Normalize(stored.text)
  }

  predicate IsReadRow(stored: Row, read: Row) {
    && read.id == stored.id && |read.cells| == |stored.cells|
    && forall c :: 0 <= c < |stored.cells| ==>
         read.cells[c].id == stored.cells[c].id && read.cells[c].value == Normalize(stored.cells[c].value)
  }

  predicate IsReadTable(stored: Table, read: Table) {
    && read.id == stored.id && read.pages == stored.pages
    && (read.title.None? <==> stored.title.None? || stored.title.value == "")
    && (read.title.Some? ==> read.title.value == Normalize(stored.title.value))
    && |read.headers| == |stored.headers|
    && (forall c :: 0 <= c < |stored.headers| ==> read.headers[c] == Normalize(stored.headers[c]))
    && |read.rows| == |stored.rows|
    && forall r :: 0 <= r < |stored.rows| ==> IsReadRow(stored.rows[r], read.rows[r])
  }

  /**
   Every field and table is read in its place, and every text block that is no boilerplate in its order: under its id,
   on its page and in its region, with its texts normalized.
   */
  predicate IsRead(rules: Rules, stored: Document, read: Document) {
    && read.documentType == stored.documentType
    && |read.fields| == |stored.fields|
    && (forall i :: 0 <= i < |stored.fields| ==> IsReadField(stored.fields[i], read.fields[i]))
    && |read.tables| == |stored.tables|
    && (forall t :: 0 <= t < |stored.tables| ==> IsReadTable(stored.tables[t], read.tables[t]))
    && var kept := Keep(stored.blocks, (b: Block) => !Boilerplate(rules, b.text));
       && |read.blocks| == |kept|
       && forall i :: 0 <= i < |kept| ==> IsReadBlock(kept[i], read.blocks[i])
  }

  lemma ReadTableIsExact(stored: Table, read: Table)
    ensures read == NormalizedTable(stored) <==> IsReadTable(stored, read)
  {
    var n := NormalizedTable(stored);
    forall r | 0 <= r < |stored.rows| ensures IsReadRow(stored.rows[r], n.rows[r]) {
    }
    if IsReadTable(stored, read) {
      forall r | 0 <= r < |stored.rows| ensures read.rows[r] == n.rows[r] {
        SameRow(stored.rows[r], read.rows[r], n.rows[r]);
      }
      assert read.rows == n.rows && read.headers == n.headers && read.title == n.title;
    }
  }

  lemma SameRow(stored: Row, a: Row, b: Row)
    requires IsReadRow(stored, a) && IsReadRow(stored, b)
    ensures a == b
  {
    forall c | 0 <= c < |a.cells| ensures a.cells[c] == b.cells[c] {
    }
    assert a.cells == b.cells;
  }

  /** Reading stored data back is exactly this. */
  lemma ReadingIsExact(rules: Rules, stored: Document, read: Document)
    ensures read == NormalizedDocument(rules, stored) <==> IsRead(rules, stored, read)
  {
    var n, kept := NormalizedDocument(rules, stored), KeptBlocks(rules, stored.blocks);
    forall t | 0 <= t < |stored.tables| ensures IsReadTable(stored.tables[t], n.tables[t]) {
      ReadTableIsExact(stored.tables[t], n.tables[t]);
    }
    KeepSame(stored.blocks, (b: Block) => !Boilerplate(rules, b.text), (b: Block) => !Boilerplate(rules, b.text));
    if IsRead(rules, stored, read) {
      forall t | 0 <= t < |stored.tables| ensures read.tables[t] == n.tables[t] {
        ReadTableIsExact(stored.tables[t], read.tables[t]);
      }
      forall i | 0 <= i < |stored.fields| ensures read.fields[i] == n.fields[i] {
        assert IsReadField(stored.fields[i], read.fields[i]);
      }
      forall i | 0 <= i < |kept| ensures read.blocks[i] == n.blocks[i] {
        assert IsReadBlock(kept[i], read.blocks[i]);
      }
      assert read.fields == n.fields && read.tables == n.tables && read.blocks == n.blocks;
    }
  }
}

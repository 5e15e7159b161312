/**
 * The web page (app/page.tsx). The ledger is page state mirrored into the
 * browser's synchronous local storage under the key "barcodes". Here
 * `saveBarcodes` writes the store first and the state second, so a write that
 * throws leaves both as they were and the exception ends the handler before
 * its toast. The scanner reports every decode while it is open.
 */
module Web {
  import opened Wrappers
  import opened Ledger
  import Json

  /** The toasts the handlers show. */
  datatype Toast =
    | BarcodeDetected(format: string, data: string)
    | DuplicateBarcode
    | Deleted
    | DeletedAll

  /** How a handler ends: with its toast, or with the exception `localStorage.setItem` threw. */
  datatype Outcome = Shown(toast: Toast) | StorageError

  class Home {
    /** The `barcodes` state: the ledger as shown. */
    var barcodes: seq<Barcode>
    /** The scanner card is open. */
    var isScanning: bool
    /** The browser's local storage: key to stored text. */
    var storage: map<string, string>

    /** The store holds exactly the shown list. */
    ghost predicate InSync()
      reads this
    {
      StorageKey in storage && storage[StorageKey] == Json.Encode(barcodes)
    }

    /** The page as first rendered, over whatever the browser already stores. */
    constructor (storage: map<string, string>)
      ensures barcodes == [] && !isScanning && this.storage == storage
    {
      barcodes := [];
      isScanning := false;
      this.storage := storage;
    }

    /**
     * The load effect: a read of local storage that throws (`readOk` false,
     * as when the browser blocks storage) ends the effect; a stored value that
     * is absent or the empty text is ignored; any other replaces the list by
     * its parse. `ok` is false when the read or the parse throws, which the
     * effect does not catch.
     */
    method LoadSaved(readOk: bool) returns (ok: bool)
      modifies this`barcodes
      ensures !readOk ==> !ok && barcodes == old(barcodes)
      ensures readOk && (StorageKey !in storage || storage[StorageKey] == "") ==> ok && barcodes == old(barcodes)
      ensures readOk && StorageKey in storage && storage[StorageKey] != "" ==>
        ok == Json.Decode(storage[StorageKey]).Some? &&
        barcodes == (if ok then Json.Decode(storage[StorageKey]).value else old(barcodes))
      ensures ok && StorageKey in storage && storage[StorageKey] != "" ==> InSync()
    {
      if !readOk {
        return false;
      }
      ok := true;
      if StorageKey in storage && storage[StorageKey] != "" {
        var savedBarcodes := storage[StorageKey];
        match Json.Decode(savedBarcodes)
        case Some(list) =>
          Json.DecodeExactly(savedBarcodes, list);
          barcodes := list;
        case None =>
          ok := false;
      }
    }

    /** `saveBarcodes`: write the store, then the state; a write that throws changes neither. */
    method SaveBarcodes(updated: seq<Barcode>, writeOk: bool) returns (ok: bool)
      modifies this`storage, this`barcodes
      ensures ok == writeOk
      ensures writeOk ==> storage == old(storage)[StorageKey := Json.Encode(updated)] && barcodes == updated
      ensures !writeOk ==> storage == old(storage) && barcodes == old(barcodes)
      ensures writeOk ==> InSync()
    {
      ok := writeOk;
      if writeOk {
        storage := storage[StorageKey := Json.Encode(updated)];
        barcodes := updated;
      }
    }

    /** `handleBarCodeScanned`: append and save a record for a payload not seen before, or report a duplicate. */
    method HandleBarCodeScanned(format: string, data: string, id: string, timestamp: string, writeOk: bool)
      returns (outcome: Outcome)
      modifies this`storage, this`barcodes
      ensures AnyWithData(old(barcodes), data) ==>
        barcodes == old(barcodes) && storage == old(storage) && outcome == Shown(DuplicateBarcode)
      ensures !AnyWithData(old(barcodes), data) && writeOk ==>
        barcodes == old(barcodes) + [Barcode(id, format, data, timestamp)] &&
        storage == old(storage)[StorageKey := Json.Encode(barcodes)] &&
        outcome == Shown(BarcodeDetected(format, data))
      ensures !AnyWithData(old(barcodes), data) && !writeOk ==>
        barcodes == old(barcodes) && storage == old(storage) && outcome == StorageError
      ensures UniqueData(old(barcodes)) ==> UniqueData(barcodes)
      ensures old(InSync()) ==> InSync()
    {
      if !AnyWithData(barcodes, data) {
        var newBarcode := Barcode(id, format, data, timestamp);
        var updatedBarcodes := barcodes + [newBarcode];
        if UniqueData(barcodes) {
          UniqueAppend(barcodes, newBarcode);
        }
        var ok := SaveBarcodes(updatedBarcodes, writeOk);
        outcome := if ok then Shown(BarcodeDetected(format, data)) else StorageError;
      } else {
        outcome := Shown(DuplicateBarcode);
      }
    }

    /** A decode event from the scanner, delivered only while the scanner card is open. */
    method OnScanSuccess(format: string, data: string, id: string, timestamp: string, writeOk: bool)
      returns (outcome: Option<Outcome>)
      modifies this`storage, this`barcodes
      ensures !isScanning ==> outcome == None && barcodes == old(barcodes) && storage == old(storage)
      ensures isScanning ==>
        barcodes == (if writeOk then Scanned(old(barcodes), Barcode(id, format, data, timestamp)) else old(barcodes))
      ensures isScanning && AnyWithData(old(barcodes), data) ==>
        storage == old(storage) && outcome == Some(Shown(DuplicateBarcode))
      ensures isScanning && !AnyWithData(old(barcodes), data) ==>
        storage == (if writeOk then old(storage)[StorageKey := Json.Encode(barcodes)] else old(storage)) &&
        outcome == Some(if writeOk then Shown(BarcodeDetected(format, data)) else StorageError)
      ensures UniqueData(old(barcodes)) ==> UniqueData(barcodes)
      ensures old(InSync()) ==> InSync()
    {
      if isScanning {
        var handled := HandleBarCodeScanned(format, data, id, timestamp, writeOk);
        outcome := Some(handled);
      } else {
        outcome := None;
      }
    }

    /** "Start Scanning": open the scanner card. */
    method StartScanning()
      modifies this`isScanning
      ensures isScanning
    {
      isScanning := true;
    }

    /** "Close Scanner": close the scanner card. */
    method CloseScanner()
      modifies this`isScanning
      ensures !isScanning
    {
      isScanning := false;
    }

    /** `deleteBarcode`: drop every record with that id and save, even when none had it. */
    method DeleteBarcode(id: string, writeOk: bool) returns (outcome: Outcome)
      modifies this`storage, this`barcodes
      ensures writeOk ==>
        barcodes == WithoutId(old(barcodes), id) &&
        storage == old(storage)[StorageKey := Json.Encode(barcodes)] && outcome == Shown(Deleted)
      ensures !writeOk ==> barcodes == old(barcodes) && storage == old(storage) && outcome == StorageError
      ensures UniqueData(old(barcodes)) ==> UniqueData(barcodes)
      ensures writeOk ==> InSync()
      ensures old(InSync()) ==> InSync()
    {
      var updatedBarcodes := WithoutId(barcodes, id);
      if UniqueData(barcodes) {
        WithoutIdUnique(barcodes, id);
      }
      var ok := SaveBarcodes(updatedBarcodes, writeOk);
      outcome := if ok then Shown(Deleted) else StorageError;
    }

    /** `deleteAllBarcodes`: save the empty list. */
    method DeleteAllBarcodes(writeOk: bool) returns (outcome: Outcome)
      modifies this`storage, this`barcodes
      ensures writeOk ==>
        barcodes == [] && storage == old(storage)[StorageKey := Json.Encode([])] && outcome == Shown(DeletedAll)
      ensures !writeOk ==> barcodes == old(barcodes) && storage == old(storage) && outcome == StorageError
      ensures writeOk ==> InSync()
      ensures old(InSync()) ==> InSync()
    {
      var ok := SaveBarcodes([], writeOk);
      outcome := if ok then Shown(DeletedAll) else StorageError;
    }

    /** `copyAllBarcodes`: the "No Barcodes" toast, or the text handed to the clipboard. */
    method CopyAllBarcodes() returns (outcome: CopyOutcome)
      ensures outcome == CopyAll(barcodes)
      ensures outcome == NoBarcodes <==> barcodes == []
      ensures outcome.Copied? ==> outcome.text == JoinLines(Payloads(barcodes))
    {
      outcome := CopyAll(barcodes);
    }
  }

  /**
   * A page reload: what one page saved, the next one loads back, record for
   * record and in order.
   */
  method Reload(before: Home) returns (after: Home)
    requires before.InSync()
    ensures fresh(after) && after.barcodes == before.barcodes && after.InSync()
  {
    after := new Home(before.storage);
    var ok := after.LoadSaved(true);
    Json.DecodeEncode(before.barcodes);
  }

  /** A code scanned twice with the scanner open: the repeat only raises the duplicate toast. */
  method ScanTwice(page: Home, format: string, code: string, id1: string, id2: string, when: string)
    requires page.barcodes == []
    modifies page
  {
    var first := Barcode(id1, format, code, when);
    page.StartScanning();
    var outcome := page.OnScanSuccess(format, code, id1, when, true);
    assert outcome == Some(Shown(BarcodeDetected(format, code)));
    assert page.barcodes == [first];
    assert AnyWithData(page.barcodes, code) by {
      assert page.barcodes[0].data == code;
    }
    outcome := page.OnScanSuccess(format, code, id2, when, true);
    assert outcome == Some(Shown(DuplicateBarcode)) && page.barcodes == [first];
  }

  /** A failed write changes nothing, and a closed scanner reports nothing. */
  method FailedWriteThenClose(page: Home, format: string, code: string, id: string, when: string)
    requires page.InSync()
    modifies page
  {
    var before := page.barcodes;
    var failed := page.DeleteAllBarcodes(false);
    assert failed == StorageError && page.barcodes == before && page.InSync();
    page.CloseScanner();
    var outcome := page.OnScanSuccess(format, code, id, when, true);
    assert outcome == None && page.barcodes == before;
  }
}

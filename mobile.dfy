/**
 * The mobile screen (App.tsx). The ledger is component state mirrored into
 * the device's asynchronous key-value store under the key "barcodes", and two
 * flags gate the camera: `isScanning` shows the scanner view and `scanned`
 * drops further decode callbacks until the user re-arms it. Each handler runs
 * to completion; whether a store read or write succeeds is an input.
 */
module Mobile {
  import opened Wrappers
  import opened Ledger
  import Json

  /** The alert dialogs the handlers raise. */
  datatype Alert =
    | BarcodeDetected(format: string, data: string)
    | DuplicateBarcode
    | FailedToSave
    | FailedToLoad

  /**
   * The screens the component renders: the permission notices, the camera
   * view (with or without its decode callback attached) and the list.
   */
  datatype Screen = RequestingPermission | NoAccess | ScannerView(callbackAttached: bool) | ListView

  class App {
    /** The `barcodes` state: the ledger as shown. */
    var barcodes: seq<Barcode>
    /** A decode was handled; the camera's callback is detached until re-armed. */
    var scanned: bool
    /** The camera view is shown instead of the list. */
    var isScanning: bool
    /** The answer to the camera permission request, `None` while it is pending. */
    var hasPermission: Option<bool>
    /** The key-value store: key to stored text. */
    var storage: map<string, string>

    /** The store holds exactly the shown list. */
    ghost predicate InSync()
      reads this
    {
      StorageKey in storage && storage[StorageKey] == Json.Encode(barcodes)
    }

    /** What the screen renders for the current state. */
    function CurrentScreen(): (screen: Screen)
      reads this
      ensures screen == RequestingPermission <==> hasPermission == None
      ensures screen == NoAccess <==> hasPermission == Some(false)
      ensures screen.ScannerView? <==> hasPermission == Some(true) && isScanning
      ensures screen.ScannerView? ==> screen.callbackAttached == !scanned
      ensures screen == ListView <==> hasPermission == Some(true) && !isScanning
    {
      if hasPermission.None? then RequestingPermission
      else if !hasPermission.value then NoAccess
      else if isScanning then ScannerView(!scanned)
      else ListView
    }

    /** The camera is on screen with its decode callback attached. */
    predicate Accepting(): (accepting: bool)
      reads this
      ensures accepting <==> CurrentScreen() == ScannerView(true)
    {
      hasPermission == Some(true) && isScanning && !scanned
    }

    /** The screen as first rendered, over whatever the store already holds. */
    constructor (storage: map<string, string>)
      ensures barcodes == [] && !scanned && !isScanning && hasPermission == None
      ensures this.storage == storage
    {
      barcodes := [];
      scanned := false;
      isScanning := false;
      hasPermission := None;
      this.storage := storage;
    }

    /** `loadBarcodes`: replace the list by the stored one, if there is one and it parses. */
    method LoadBarcodes(readOk: bool) returns (alert: Option<Alert>)
      modifies this`barcodes
      ensures readOk && StorageKey !in storage ==> barcodes == old(barcodes) && alert == None
      ensures readOk && StorageKey in storage && Json.Decode(storage[StorageKey]).Some? ==>
        barcodes == Json.Decode(storage[StorageKey]).value && alert == None && InSync()
      ensures (!readOk || (StorageKey in storage && Json.Decode(storage[StorageKey]).None?)) ==>
        barcodes == old(barcodes) && alert == Some(FailedToLoad)
    {
      if !readOk {
        return Some(FailedToLoad);
      }
      alert := None;
      if StorageKey in storage {
        var stored := storage[StorageKey];
        match Json.Decode(stored)
        case Some(list) =>
          Json.DecodeExactly(stored, list);
          barcodes := list;
        case None =>
          alert := Some(FailedToLoad);
      }
    }

    /** The mount effect: record the permission answer, then load the saved list. */
    method Mount(granted: bool, readOk: bool) returns (alert: Option<Alert>)
      modifies this`hasPermission, this`barcodes
      ensures hasPermission == Some(granted)
      ensures readOk && StorageKey !in storage ==> barcodes == old(barcodes) && alert == None
      ensures readOk && StorageKey in storage && Json.Decode(storage[StorageKey]).Some? ==>
        barcodes == Json.Decode(storage[StorageKey]).value && alert == None && InSync()
      ensures (!readOk || (StorageKey in storage && Json.Decode(storage[StorageKey]).None?)) ==>
        barcodes == old(barcodes) && alert == Some(FailedToLoad)
    {
      hasPermission := Some(granted);
      alert := LoadBarcodes(readOk);
    }

    /** `saveBarcodes`: write the list through to the store; a failed write only raises an alert. */
    method SaveBarcodes(updated: seq<Barcode>, writeOk: bool) returns (alert: Option<Alert>)
      modifies this`storage
      ensures storage == if writeOk then old(storage)[StorageKey := Json.Encode(updated)] else old(storage)
      ensures alert == if writeOk then None else Some(FailedToSave)
    {
      if writeOk {
        storage := storage[StorageKey := Json.Encode(updated)];
        alert := None;
      } else {
        alert := Some(FailedToSave);
      }
    }

    /**
     * `handleBarCodeScanned`: detach the camera callback, then append a record
     * for a payload not seen before and write the list through, or report a duplicate.
     */
    method HandleBarCodeScanned(format: string, data: string, id: string, timestamp: string, writeOk: bool)
      returns (alerts: seq<Alert>)
      modifies this`scanned, this`barcodes, this`storage
      ensures scanned && !Accepting()
      ensures barcodes == Scanned(old(barcodes), Barcode(id, format, data, timestamp))
      ensures AnyWithData(old(barcodes), data) ==>
        storage == old(storage) && alerts == [DuplicateBarcode]
      ensures !AnyWithData(old(barcodes), data) ==>
        storage == (if writeOk then old(storage)[StorageKey := Json.Encode(barcodes)] else old(storage)) &&
        alerts == [BarcodeDetected(format, data)] + (if writeOk then [] else [FailedToSave])
      ensures UniqueData(old(barcodes)) ==> UniqueData(barcodes)
      ensures old(InSync()) && writeOk ==> InSync()
    {
      scanned := true;
      if UniqueData(barcodes) {
        ScannedUnique(barcodes, Barcode(id, format, data, timestamp));
      }
      if !AnyWithData(barcodes, data) {
        var newBarcode := Barcode(id, format, data, timestamp);
        var updated := barcodes + [newBarcode];
        barcodes := updated;
        var failure := SaveBarcodes(updated, writeOk);
        alerts := [BarcodeDetected(format, data)] + (if failure.Some? then [failure.value] else []);
      } else {
        alerts := [DuplicateBarcode];
      }
    }

    /**
     * A decode event from the camera. It reaches the handler only while the
     * scanner view is on screen and `scanned` is clear; otherwise nothing happens.
     */
    method OnBarCodeScanned(format: string, data: string, id: string, timestamp: string, writeOk: bool)
      returns (alerts: seq<Alert>)
      modifies this`scanned, this`barcodes, this`storage
      ensures !Accepting()
      ensures !old(Accepting()) ==>
        scanned == old(scanned) && barcodes == old(barcodes) && storage == old(storage) && alerts == []
      ensures old(Accepting()) ==> barcodes == Scanned(old(barcodes), Barcode(id, format, data, timestamp))
      ensures old(Accepting()) && AnyWithData(old(barcodes), data) ==>
        storage == old(storage) && alerts == [DuplicateBarcode]
      ensures old(Accepting()) && !AnyWithData(old(barcodes), data) ==>
        storage == (if writeOk then old(storage)[StorageKey := Json.Encode(barcodes)] else old(storage)) &&
        alerts == [BarcodeDetected(format, data)] + (if writeOk then [] else [FailedToSave])
      ensures UniqueData(old(barcodes)) ==> UniqueData(barcodes)
      ensures old(InSync()) && writeOk ==> InSync()
    {
      if Accepting() {
        alerts := HandleBarCodeScanned(format, data, id, timestamp, writeOk);
      } else {
        alerts := [];
      }
    }

    /** "Scan Again" (in the alert or on the scanner view): re-attach the camera callback. */
    method ScanAgain()
      modifies this`scanned
      ensures !scanned
      ensures Accepting() <==> hasPermission == Some(true) && isScanning
    {
      scanned := false;
    }

    /** "Back to List": leave the scanner view. */
    method BackToList()
      modifies this`isScanning
      ensures !isScanning && !Accepting()
    {
      isScanning := false;
    }

    /** "Scan Barcode": open the scanner view with the callback attached. */
    method StartScanning()
      modifies this`isScanning, this`scanned
      ensures isScanning && !scanned
      ensures Accepting() <==> hasPermission == Some(true)
    {
      isScanning := true;
      scanned := false;
    }

    /** `deleteBarcode`: if the user confirms, drop every record with that id and write the list through. */
    method DeleteBarcode(id: string, confirmed: bool, writeOk: bool) returns (alert: Option<Alert>)
      modifies this`barcodes, this`storage
      ensures !confirmed ==> barcodes == old(barcodes) && storage == old(storage) && alert == None
      ensures confirmed ==> barcodes == WithoutId(old(barcodes), id)
      ensures confirmed ==>
        storage == (if writeOk then old(storage)[StorageKey := Json.Encode(barcodes)] else old(storage)) &&
        alert == (if writeOk then None else Some(FailedToSave))
      ensures UniqueData(old(barcodes)) ==> UniqueData(barcodes)
      ensures confirmed && writeOk ==> InSync()
    {
      alert := None;
      if confirmed {
        var updated := WithoutId(barcodes, id);
        if UniqueData(barcodes) {
          WithoutIdUnique(barcodes, id);
        }
        barcodes := updated;
        alert := SaveBarcodes(updated, writeOk);
      }
    }

    /** `deleteAllBarcodes`: if the user confirms, empty the list and write the empty list through. */
    method DeleteAllBarcodes(confirmed: bool, writeOk: bool) returns (alert: Option<Alert>)
      modifies this`barcodes, this`storage
      ensures !confirmed ==> barcodes == old(barcodes) && storage == old(storage) && alert == None
      ensures confirmed ==> barcodes == []
      ensures confirmed ==>
        storage == (if writeOk then old(storage)[StorageKey := Json.Encode([])] else old(storage)) &&
        alert == (if writeOk then None else Some(FailedToSave))
      ensures confirmed && writeOk ==> InSync()
    {
      alert := None;
      if confirmed {
        barcodes := [];
        alert := SaveBarcodes([], writeOk);
      }
    }

    /** `copyAllBarcodes`: the "No Barcodes" alert, or the text handed to the clipboard. */
    method CopyAllBarcodes() returns (outcome: CopyOutcome)
      ensures outcome == CopyAll(barcodes)
      ensures outcome == NoBarcodes <==> barcodes == []
      ensures outcome.Copied? ==> outcome.text == JoinLines(Payloads(barcodes))
    {
      outcome := CopyAll(barcodes);
    }
  }

  /** The camera gate on a fresh install: a code is recorded once and a repeated decode is dropped. */
  method FirstScan(format: string, code: string, id1: string, id2: string, when: string)
  {
    var app := new App(map[]);
    var loaded := app.Mount(true, true);
    app.StartScanning();
    var alerts := app.OnBarCodeScanned(format, code, id1, when, true);
    assert alerts == [BarcodeDetected(format, code)];
    assert app.barcodes == [Barcode(id1, format, code, when)];
    alerts := app.OnBarCodeScanned(format, code, id2, when, true);
    assert alerts == [];
  }

  /** After "Scan Again", a code already in the list is reported as a duplicate. */
  method ScanAgainDuplicate(app: App, code: string, format: string, id: string, when: string)
    requires app.hasPermission == Some(true) && app.isScanning && app.scanned
    requires AnyWithData(app.barcodes, code)
    modifies app
  {
    var before := app.barcodes;
    app.ScanAgain();
    var alerts := app.OnBarCodeScanned(format, code, id, when, true);
    assert alerts == [DuplicateBarcode] && app.barcodes == before;
  }

  /** A second code is recorded after the first, in the order scanned. */
  method SecondScan(app: App, first: Barcode, second: Barcode, writeOk: bool)
    requires app.barcodes == [first] && app.Accepting()
    requires first.data != second.data
    modifies app
  {
    var alerts := app.OnBarCodeScanned(second.format, second.data, second.id, second.timestamp, writeOk);
    assert alerts[0] == BarcodeDetected(second.format, second.data);
    assert app.barcodes == [first, second];
  }

  /** Two records copied together, one payload per line. */
  method CopySession(app: App, first: Barcode, second: Barcode)
    requires app.barcodes == [first, second]
  {
    var copied := app.CopyAllBarcodes();
    assert Payloads(app.barcodes) == [first.data, second.data];
    assert copied == Copied(first.data + "\n" + second.data);
  }

  /** Two records deleted one by id and then all together. */
  method DeleteSession(app: App, first: Barcode, second: Barcode, writeOk: bool)
    requires app.barcodes == [first, second] && first.id != second.id
    modifies app
  {
    var failure := app.DeleteBarcode(first.id, true, writeOk);
    assert app.barcodes == [second];
    failure := app.DeleteAllBarcodes(true, writeOk);
    assert app.barcodes == [] && (writeOk ==> app.InSync());
  }
}
